/** The topic saga of tenant creation (ws/internal/provisioning/service.go, ws/internal/provisioning/interfaces.go,
    ws/internal/provisioning/kafka_noop.go): two topics are created before the tenant record, and rolled back if a
    later step fails. */
module TenantSaga {

  datatype Name = Name(text: string)

  /** How a broker call fares: done, answered as done without effect, or reported as failed with or without
      effect. */
  datatype Fault = Healthy | Ignored | Error(applied: bool)

  datatype Reply = Created | AlreadyExists | Failed

  predicate Effective(f: Fault) {
    f.Healthy? || (f.Error? && f.applied)
  }

  class KafkaAdmin {
    /** Does creating an existing topic answer "already exists"? A production adapter may. */
    const reportsExisting: bool
    var topics: set<Name>

    constructor (reportsExisting: bool, topics: set<Name>)
      ensures this.reportsExisting == reportsExisting && this.topics == topics
    {
      this.reportsExisting, this.topics := reportsExisting, topics;
    }

    method CreateTopic(name: Name, fault: Fault) returns (reply: Reply)
      modifies this
      ensures topics == if Effective(fault) then old(topics) + {name} else old(topics)
      ensures reply == Failed <==> fault.Error?
      ensures !fault.Error? ==> (reply == AlreadyExists <==> reportsExisting && name in old(topics))
    {
      reply := if fault.Error? then Failed else if reportsExisting && name in topics then AlreadyExists else Created;
      if Effective(fault) {
        topics := topics + {name};
      }
    }

    method DeleteTopic(name: Name, fault: Fault)
      modifies this
      ensures topics == if Effective(fault) then old(topics) - {name} else old(topics)
    {
      if Effective(fault) {
        topics := topics - {name};
      }
    }
  }

  /** The outcome of every call: the two creates, the tenant insert, and the rollback deletes. */
  datatype Faults = Faults(createDlq: Fault, createDefault: Fault, insertOk: bool, deleteDlq: Fault, deleteDefault: Fault)

  predicate Succeeds(faults: Faults) {
    !faults.createDlq.Error? && !faults.createDefault.Error? && faults.insertOk
  }

  /** A topic that a failed saga leaves behind: it was not there before, and it was created behind an error or
      its rollback had no effect. */
  predicate LeftBehind(existed: bool, create: Fault, delete: Fault) {
    !existed && (create == Error(true) || (create.Healthy? && !Effective(delete)))
  }

  /** A topic that a failed saga takes away: it was there before, the adapter did not say so, and the rollback
      took effect. */
  predicate TakenAway(existed: bool, reports: bool, create: Fault, delete: Fault) {
    existed && !reports && !create.Error? && Effective(delete)
  }

  /** The topics after the saga. */
  function TopicsAfter(topics: set<Name>, reports: bool, dlq: Name, def: Name, faults: Faults): set<Name> {
    if Succeeds(faults) then
      topics + (if faults.createDlq.Healthy? then {dlq} else {}) + (if faults.createDefault.Healthy? then {def} else {})
    else
      var reached := !faults.createDlq.Error?;
      topics
      + (if LeftBehind(dlq in topics, faults.createDlq, faults.deleteDlq) then {dlq} else {})
      + (if reached && LeftBehind(def in topics, faults.createDefault, faults.deleteDefault) then {def} else {})
      - (if TakenAway(dlq in topics, reports, faults.createDlq, faults.deleteDlq) then {dlq} else {})
      - (if reached && TakenAway(def in topics, reports, faults.createDefault, faults.deleteDefault) then {def} else {})
  }

  /** A failed saga leaves a topic as it was: the create did nothing new, or it worked and was rolled back, and no
      rollback takes a topic that was there before. */
  predicate Restores(existed: bool, reports: bool, create: Fault, delete: Fault) {
    match create
    case Error(applied) => existed || !applied
    case Healthy => if existed then reports || !Effective(delete) else Effective(delete)
    case Ignored => existed ==> reports || !Effective(delete)
  }

  /** The same for a topic that may or may not have been there. */
  predicate Undone(reports: bool, create: Fault, delete: Fault) {
    match create
    case Error(applied) => !applied
    case Healthy => reports && Effective(delete)
    case Ignored => reports || !Effective(delete)
  }

  /** Both topics, as far as the saga got. */
  predicate AllUndone(reports: bool, faults: Faults) {
    && Undone(reports, faults.createDlq, faults.deleteDlq)
    && (faults.createDlq.Error? || Undone(reports, faults.createDefault, faults.deleteDefault))
  }

  predicate DeletesIdle(faults: Faults) {
    !Effective(faults.deleteDlq) && !Effective(faults.deleteDefault)
  }

  /** The saga up to the tenant insert. A topic that existed before the call is never deleted if the adapter reports
      existing topics or its deletes have no effect. */
  method CreateTenant(kafka: KafkaAdmin, deadLetterName: Name, defaultName: Name, faults: Faults) returns (ok: bool)
    requires deadLetterName != defaultName
    modifies kafka
    ensures ok <==> Succeeds(faults)
    ensures kafka.topics == TopicsAfter(old(kafka.topics), kafka.reportsExisting, deadLetterName, defaultName, faults)
    ensures kafka.reportsExisting || DeletesIdle(faults) || ok ==> old(kafka.topics) <= kafka.topics
    ensures !ok && AllUndone(kafka.reportsExisting, faults) ==> kafka.topics == old(kafka.topics)
    ensures old(kafka.topics) - {deadLetterName, defaultName} <= kafka.topics
    ensures kafka.topics <= old(kafka.topics) + {deadLetterName, defaultName}
  {
    ghost var after := TopicsAfter(kafka.topics, kafka.reportsExisting, deadLetterName, defaultName, faults);
    var dlqCreatedHere, defaultCreatedHere := false, false;
    var reply := kafka.CreateTopic(deadLetterName, faults.createDlq);
    if reply == Failed {
      assert kafka.topics == after;
      return false;
    } else if reply == Created {
      dlqCreatedHere := true;
    }
    reply := kafka.CreateTopic(defaultName, faults.createDefault);
    if reply == Failed {
      if dlqCreatedHere {
        kafka.DeleteTopic(deadLetterName, faults.deleteDlq);
      }
      assert kafka.topics == after;
      return false;
    } else if reply == Created {
      defaultCreatedHere := true;
    }
    if !faults.insertOk {
      if defaultCreatedHere {
        kafka.DeleteTopic(defaultName, faults.deleteDefault);
      }
      if dlqCreatedHere {
        kafka.DeleteTopic(deadLetterName, faults.deleteDlq);
      }
      assert kafka.topics == after;
      return false;
    }
    assert kafka.topics == after;
    return true;
  }

  /** What is fixed about an adapter: whether it reports existing topics, and whether its deletes can have an
      effect. */
  datatype Adapter = Adapter(reports: bool, deletes: bool)

  /** The outcomes an adapter can produce. */
  predicate Possible(adapter: Adapter, faults: Faults) {
    adapter.deletes || DeletesIdle(faults)
  }

  /** Whatever fails, the saga spares every topic that existed before, exactly if the adapter reports existing
      topics or its deletes have no effect. With any other adapter a failed insert is enough to lose both. The no-op
      adapter, whose calls all answer success and do nothing, changes no topic. */
  lemma {:induction false} ExistingTopicsSparedIff(adapter: Adapter, dlq: Name, def: Name)
    requires dlq != def
    ensures adapter.reports || !adapter.deletes <==>
      forall topics, faults :: Possible(adapter, faults) ==>
        topics <= TopicsAfter(topics, adapter.reports, dlq, def, faults)
    ensures adapter == Adapter(false, true) ==>
      TopicsAfter({dlq, def}, adapter.reports, dlq, def, Faults(Healthy, Healthy, false, Healthy, Healthy)) == {}
    ensures forall topics, insertOk ::
      TopicsAfter(topics, false, dlq, def, Faults(Ignored, Ignored, insertOk, Ignored, Ignored)) == topics
  {
    if !adapter.reports && adapter.deletes {
      var topics, faults := {dlq, def}, Faults(Healthy, Healthy, false, Healthy, Healthy);
      assert Possible(adapter, faults) && TopicsAfter(topics, adapter.reports, dlq, def, faults) == {};
      assert dlq in topics;
    }
  }

  /** A failed saga leaves the topics as they were exactly if it does so for each topic whose create it reached.
      It does so whatever the topics were exactly if no create took effect behind an error, each create that worked
      was rolled back, and no rollback could take an unreported topic. */
  lemma {:induction false} FailureRestoresIff(topics: set<Name>, reports: bool, dlq: Name, def: Name, faults: Faults)
    requires dlq != def && !Succeeds(faults)
    ensures TopicsAfter(topics, reports, dlq, def, faults) == topics <==>
      && Restores(dlq in topics, reports, faults.createDlq, faults.deleteDlq)
      && (faults.createDlq.Error? || Restores(def in topics, reports, faults.createDefault, faults.deleteDefault))
    ensures AllUndone(reports, faults) <==> forall any :: TopicsAfter(any, reports, dlq, def, faults) == any
  {
    var after := TopicsAfter(topics, reports, dlq, def, faults);
    assert after == topics ==> (dlq in after <==> dlq in topics) && (def in after <==> def in topics);
    if AllUndone(reports, faults) {
      forall any ensures TopicsAfter(any, reports, dlq, def, faults) == any {
      }
    } else {
      var none, both := {}, {dlq, def};
      var afterNone := TopicsAfter(none, reports, dlq, def, faults);
      var afterBoth := TopicsAfter(both, reports, dlq, def, faults);
      assert afterNone == none ==> dlq !in afterNone && def !in afterNone;
      assert afterBoth == both ==> dlq in afterBoth && def in afterBoth;
    }
  }
}
