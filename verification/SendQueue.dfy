/** A bounded Go channel, with the history of everything it ever accepted. */
module SendQueue {

  /** `log` is every item ever accepted, in order; the first `taken` of them were received. */
  datatype Fifo<T> = Fifo(log: seq<T>, taken: nat, cap: nat) {
    predicate Valid() {
      taken <= |log| <= taken + cap
    }

    predicate Full() {
      |log| >= taken + cap
    }

    predicate Empty() {
      taken >= |log|
    }

    function Push(x: T): Fifo<T> {
      this.(log := log + [x])
    }

    function Pop(): Fifo<T> {
      this.(taken := taken + 1)
    }
  }
}
