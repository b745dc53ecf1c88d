/** When PUBLISHED and DEAD_LETTER are final, told from the state alone. */
module OutboxFinality {
  import opened Common
  import opened OutboxRuns
  import opened OutboxSafety
  import opened OutboxTimely

  /** The process has the message still to come in its batch. */
  predicate InTail(pc: Pc, id: string)
    requires Working(pc)
  {
    exists i :: 0 < i < |pc.batch| && pc.batch[i].id == id
  }

  /** The process is about to publish the message, or to mark it as something it is not. */
  predicate AtHead(row: Row, pc: Pc, id: string)
    requires Working(pc)
  {
    && pc.batch[0].id == id
    && (pc.Publishing? || pc.Nacking? || (pc.Acking? && row.status.DeadLetter?))
  }

  predicate Threat(row: Row, pc: Pc, id: string) {
    Working(pc) && (InTail(pc, id) || AtHead(row, pc, id))
  }

  predicate Exposed(s: Sys, id: string) {
    id in s.w.rows && exists p :: p in s.procs && Threat(s.w.rows[id], s.procs[p], id)
  }

  lemma NextIsNoThreat(row: Row, batch: seq<Snap>, published: nat, id: string)
    requires batch != [] && forall i :: 0 < i < |batch| ==> batch[i].id != id
    ensures !Threat(row, NextUp(batch, published), id)
  {
  }

  /** A harmless process does the message no harm and stays harmless. */
  lemma HarmlessStep(cfg: Config, w: World, pc: Pc, a: Action, id: string)
    requires Core(cfg, w) && PcOk(cfg, w, pc) && a.Go? && Terminal(w, id) && !Threat(w.rows[id], pc, id)
    ensures var (w', pc') := Act(cfg, w, pc, a); LeftAlone(w, w', id) && !Threat(w'.rows[id], pc', id)
  {
    assert RowOk(cfg, w, id);
    if pc.Leasing? {
      LeaseCopies(cfg, w, pc.worker, a.d, a.locked);
      LeaseTook(cfg, w, pc.worker, a.d, a.locked);
      hide LeaseStep;
      HarmlessLease(w, Act(cfg, w, pc, a).0, Act(cfg, w, pc, a).1, id);
    } else if Working(pc) && !pc.Publishing? {
      assert forall i :: 0 < i < |pc.batch| ==> pc.batch[i].id != id;
      NextIsNoThreat(w.rows[id], pc.batch, pc.published, id);
      NextIsNoThreat(w.rows[id], pc.batch, pc.published + 1, id);
    }
  }

  lemma HarmlessLease(w: World, w': World, pc': Pc, id: string)
    requires Took(w, w', pc') && Terminal(w, id) && (pc'.Publishing? || pc'.Finished?)
    ensures !Threat(w'.rows[id], pc', id)
  {
    if Working(pc') {
      forall i | 0 <= i < |pc'.batch| ensures pc'.batch[i].id != id {
        assert pc'.batch[i] in Pendings(pc');
      }
    }
  }

  lemma HarmlessStays(cfg: Config, s: Sys, a: Action, id: string)
    requires Inv(cfg, s) && Terminal(s.w, id) && !Exposed(s, id)
    ensures LeftAlone(s.w, Step(cfg, s, a).w, id) && !Exposed(Step(cfg, s, a), id)
  {
    hide Core, PcOk, Threat, Act;
    if a.Go? && a.pid in s.procs {
      HarmlessStep(cfg, s.w, s.procs[a.pid], a, id);
    } else if a.Poll? {
      IdleIsHarmless(s.w.rows[id], Leasing(a.worker), id);
    } else if a.Cancel? && a.pid in s.procs && s.procs[a.pid].Publishing? {
      IdleIsHarmless(s.w.rows[id], Finished(s.procs[a.pid].published, true), id);
    }
  }

  lemma IdleIsHarmless(row: Row, pc: Pc, id: string)
    requires pc.Leasing? || pc.Finished?
    ensures !Threat(row, pc, id)
  {
  }

  lemma {:induction false} HarmlessForGood(cfg: Config, acts: seq<Action>, more: seq<Action>, id: string)
    requires Terminal(Run(cfg, acts).w, id) && !Exposed(Run(cfg, acts), id)
    ensures LeftAlone(Run(cfg, acts).w, Run(cfg, acts + more).w, id) && !Exposed(Run(cfg, acts + more), id)
  {
    if more == [] {
      assert acts + more == acts;
    } else {
      var before := acts + more[..|more| - 1];
      RunMore(cfg, acts, more);
      HarmlessForGood(cfg, acts, more[..|more| - 1], id);
      Reachable(cfg, before);
      hide Inv, Exposed;
      HarmlessStays(cfg, Run(cfg, before), more[|more| - 1], id);
    }
  }

  // ---- the other half ------------------------------------------------------------------

  function Phase(pc: Pc): nat {
    if pc.Publishing? then 2 else if pc.Nacking? then 1 else 0
  }

  function Do(p: nat): Action {
    Go(p, Delivered, {}, None)
  }

  /** One delivered step of a threatening process either disturbs the message or brings the
      process nearer to it. */
  lemma Approach(cfg: Config, w0: World, w: World, pc: Pc, p: nat, id: string)
    requires LeftAlone(w0, w, id) && Terminal(w, id) && Threat(w.rows[id], pc, id)
    ensures var (w', pc') := Act(cfg, w, pc, Do(p));
            !LeftAlone(w0, w', id)
            || (LeftAlone(w0, w', id) && Threat(w'.rows[id], pc', id)
                && (|pc'.batch| < |pc.batch| || (|pc'.batch| == |pc.batch| && Phase(pc') < Phase(pc))))
  {
    var (w', pc') := Act(cfg, w, pc, Do(p));
    if pc.Publishing? {
      assert w'.log[|w.log|].header == pc.batch[0].id;
    }
    if InTail(pc, id) && |pc'.batch| < |pc.batch| {
      var i :| 0 < i < |pc.batch| && pc.batch[i].id == id;
      assert pc'.batch[i - 1].id == id;
    }
  }

  lemma {:induction false} Disturb(cfg: Config, w0: World, acts: seq<Action>, p: nat, id: string)
    returns (longer: seq<Action>)
    requires var s := Run(cfg, acts);
             && LeftAlone(w0, s.w, id) && Terminal(s.w, id)
             && p in s.procs && Threat(s.w.rows[id], s.procs[p], id)
    ensures acts <= longer && !LeftAlone(w0, Run(cfg, longer).w, id)
    decreases |Run(cfg, acts).procs[p].batch|, Phase(Run(cfg, acts).procs[p])
  {
    hide Act, Threat;
    var s := Run(cfg, acts);
    Approach(cfg, w0, s.w, s.procs[p], p, id);
    longer := acts + [Do(p)];
    assert longer[..|acts|] == acts;
    if LeftAlone(w0, Run(cfg, longer).w, id) {
      longer := Disturb(cfg, w0, longer, p, id);
    }
  }

  /** A PUBLISHED or DEAD_LETTER row is left alone in every continuation exactly if no process
      has its message still to come in its batch, or is about to publish it or to mark it as
      something else. */
  lemma {:induction false} TerminalIsFinalIff(cfg: Config, acts: seq<Action>, id: string)
    requires Terminal(Run(cfg, acts).w, id)
    ensures (forall more :: LeftAlone(Run(cfg, acts).w, Run(cfg, acts + more).w, id)) <==> !Exposed(Run(cfg, acts), id)
  {
    var s := Run(cfg, acts);
    if Exposed(s, id) {
      var p :| p in s.procs && Threat(s.w.rows[id], s.procs[p], id);
      var longer := Disturb(cfg, s.w, acts, p, id);
      assert longer == acts + longer[|acts|..];
      assert !LeftAlone(s.w, Run(cfg, acts + longer[|acts|..]).w, id);
    } else {
      forall more ensures LeftAlone(s.w, Run(cfg, acts + more).w, id) {
        HarmlessForGood(cfg, acts, more, id);
      }
    }
  }
}
