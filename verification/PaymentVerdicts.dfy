/** Which payments are captured: where every row comes from, what a call answers when nobody else
    acts, and which tokens the simulated gateway refuses. */
module PaymentVerdicts {
  import opened Common
  import opened Statuses
  import opened PaymentRuns
  import opened Text

  // ---- where a payment comes from ------------------------------------------------------

  /** One of the calls so far was for this user, key, order and amount, and the gateway approved
      of its token, or did not. */
  ghost predicate Asked(acts: seq<Action>, p: Payment, approved: bool) {
    exists i :: 0 <= i < |acts| && IsFor(acts[i], p, approved)
  }

  predicate IsFor(a: Action, p: Payment, approved: bool) {
    && a.Authorize? && a.call.verdict.Approve? == approved
    && a.call.user == p.user && (if a.call.key == "" then a.freshKey else a.call.key) == p.key
    && a.call.order == p.order && a.call.amount == p.amount
  }

  ghost predicate RowStems(acts: seq<Action>, p: Payment) {
    (p.status.Success? || p.status.Refunded? ==> Asked(acts, p, true)) && (p.status.Declined? ==> Asked(acts, p, false))
  }

  /** A call under way is one of those that were made. */
  ghost predicate CallStems(acts: seq<Action>, pc: Pc) {
    pc.AuthCheck? || pc.AuthCreate? || pc.AuthRefetch? ==>
      exists i :: 0 <= i < |acts| && acts[i].Authorize? && Keyed(acts[i].call, acts[i].freshKey) == pc.call
  }

  ghost predicate Stems(acts: seq<Action>, s: Sys) {
    && (forall id :: id in s.w.payments ==> RowStems(acts, s.w.payments[id]))
    && (forall p :: p in s.procs ==> CallStems(acts, s.procs[p]))
  }

  lemma StillAsked(acts: seq<Action>, a: Action, p: Payment, approved: bool)
    requires Asked(acts, p, approved)
    ensures Asked(acts + [a], p, approved)
  {
    var i :| 0 <= i < |acts| && IsFor(acts[i], p, approved);
    assert (acts + [a])[i] == acts[i];
  }

  lemma StillStems(acts: seq<Action>, a: Action, s: Sys)
    requires Stems(acts, s)
    ensures Stems(acts + [a], s)
  {
    forall id | id in s.w.payments ensures RowStems(acts + [a], s.w.payments[id]) {
      var p := s.w.payments[id];
      if Asked(acts, p, true) { StillAsked(acts, a, p, true); }
      if Asked(acts, p, false) { StillAsked(acts, a, p, false); }
    }
    forall q | q in s.procs ensures CallStems(acts + [a], s.procs[q]) { StillCalled(acts, a, s.procs[q]); }
  }

  lemma StillCalled(acts: seq<Action>, a: Action, pc: Pc)
    requires CallStems(acts, pc)
    ensures CallStems(acts + [a], pc)
  {
    if pc.AuthCheck? || pc.AuthCreate? || pc.AuthRefetch? {
      var i :| 0 <= i < |acts| && acts[i].Authorize? && Keyed(acts[i].call, acts[i].freshKey) == pc.call;
      assert (acts + [a])[i] == acts[i];
    }
  }

  /** A row that a step adds or changes comes from the call that it is for. */
  lemma RowsStem(acts: seq<Action>, s: Sys, a: Action)
    requires Stems(acts, s) && Inv(s)
    ensures forall id :: id in Step(s, a).w.payments ==> RowStems(acts, Step(s, a).w.payments[id])
  {
    var s' := Step(s, a);
    forall id | id in s'.w.payments ensures RowStems(acts, s'.w.payments[id]) {
      if id in s.w.payments {
        assert RowStems(acts, s.w.payments[id]);
        SameRow(s, a, id);
        SameAsked(acts, s.w.payments[id], s'.w.payments[id]);
      } else {
        NewRow(s, a, id);
        var pc := s.procs[a.pid];
        assert CallStems(acts, pc);
        var i :| 0 <= i < |acts| && acts[i].Authorize? && Keyed(acts[i].call, acts[i].freshKey) == pc.call;
        assert IsFor(acts[i], s'.w.payments[id], pc.call.verdict.Approve?);
      }
    }
  }

  lemma SameAsked(acts: seq<Action>, p: Payment, p': Payment)
    requires p' == p.(status := p'.status)
    ensures forall approved :: Asked(acts, p, approved) ==> Asked(acts, p', approved)
  {
    forall approved | Asked(acts, p, approved) ensures Asked(acts, p', approved) {
      var i :| 0 <= i < |acts| && IsFor(acts[i], p, approved);
      assert IsFor(acts[i], p', approved);
    }
  }

  lemma SameRow(s: Sys, a: Action, id: Id)
    requires id in s.w.payments
    ensures var s' := Step(s, a);
            && id in s'.w.payments
            && var (p, p') := (s.w.payments[id], s'.w.payments[id]);
               p' == p || (p' == p.(status := Refunded) && p.status.Success?)
  {
  }

  lemma NewRow(s: Sys, a: Action, id: Id)
    requires id !in s.w.payments && id in Step(s, a).w.payments
    ensures a.Advance? && a.pid in s.procs && s.procs[a.pid].AuthCreate?
    ensures var (call, p) := (s.procs[a.pid].call, Step(s, a).w.payments[id]);
            && (p.user, p.key, p.order, p.amount) == (call.user, call.key, call.order, call.amount)
            && p.status == if call.verdict.Approve? then Success else Declined
  {
  }

  lemma CallsStem(acts: seq<Action>, s: Sys, a: Action)
    requires Stems(acts, s)
    ensures forall p :: p in Step(s, a).procs ==> CallStems(acts + [a], Step(s, a).procs[p])
  {
    var s' := Step(s, a);
    StillStems(acts, a, s);
    forall p | p in s'.procs ensures CallStems(acts + [a], s'.procs[p]) {
      if p in s.procs {
        assert CallStems(acts + [a], s.procs[p]);
        SameCall(s, a, p);
      } else {
        assert (acts + [a])[|acts|] == a;
      }
    }
  }

  lemma SameCall(s: Sys, a: Action, p: nat)
    requires p in s.procs
    ensures var (pc, pc') := (s.procs[p], Step(s, a).procs[p]);
            pc'.AuthCheck? || pc'.AuthCreate? || pc'.AuthRefetch? ==>
              (pc.AuthCheck? || pc.AuthCreate? || pc.AuthRefetch?) && pc'.call == pc.call
  {
  }

  lemma {:induction false} AllStem(acts: seq<Action>)
    ensures Stems(acts, Run(acts))
  {
    if acts != [] {
      var (before, a) := (acts[..|acts| - 1], acts[|acts| - 1]);
      AllStem(before);
      Reachable(before);
      RowsStem(before, Run(before), a);
      CallsStem(before, Run(before), a);
      assert before + [a] == acts;
      hide Step, RowStems, CallStems, Inv;
      forall id | id in Run(acts).w.payments ensures RowStems(acts, Run(acts).w.payments[id]) {
        StillRow(before, a, Run(acts).w.payments[id]);
      }
    }
  }

  lemma StillRow(acts: seq<Action>, a: Action, p: Payment)
    requires RowStems(acts, p)
    ensures RowStems(acts + [a], p)
  {
    if Asked(acts, p, true) { StillAsked(acts, a, p, true); }
    if Asked(acts, p, false) { StillAsked(acts, a, p, false); }
  }

  /** Money is only ever taken on an approved call: a payment that is captured, or was, has been
      asked for by a call with its user, key, order and amount that the gateway approved of, and a
      declined one by such a call that it refused. */
  lemma {:induction false} CapturedWasApproved(acts: seq<Action>, id: Id)
    requires id in Run(acts).w.payments
    ensures var p := Run(acts).w.payments[id];
            && p.status in {Success, Refunded, Declined}
            && Asked(acts, p, !p.status.Declined?)
  {
    AllStem(acts);
    Reachable(acts);
    assert RowStems(acts, Run(acts).w.payments[id]);
    hide Run, Asked, Indexed, Accounted;
  }

  /** So no call under a key answers with a payment unless one was approved. */
  lemma {:induction false} PaidWasApproved(acts: seq<Action>, pid: nat)
    requires var s := Run(acts); pid in s.procs && s.procs[pid].Done? && s.procs[pid].reply.Paid?
    ensures Asked(acts, Run(acts).procs[pid].reply.payment, true)
  {
    var s := Run(acts);
    var reply := s.procs[pid].reply;
    Reachable(acts);
    assert PcOk(s.w, s.procs[pid]);
    hide Run, Core;
    CapturedWasApproved(acts, reply.id);
    SameAsked(acts, s.w.payments[reply.id], reply.payment);
  }

  // ---- a call without a hitch ----------------------------------------------------------

  function Whole(pid: nat, call: Call, freshKey: string, newId: Id): seq<Action> {
    [Authorize(pid, call, freshKey), Advance(pid, Delivered), Draw(pid, newId), Advance(pid, Delivered),
     Advance(pid, Delivered)]
  }

  lemma RunOne(acts: seq<Action>, a: Action)
    ensures Run(acts + [a]) == Step(Run(acts), a)
  {
    assert (acts + [a])[..|acts|] == acts;
  }

  lemma RunWhole(acts: seq<Action>, pid: nat, call: Call, freshKey: string, newId: Id)
    ensures Run(acts + Whole(pid, call, freshKey, newId))
         == Step(Step(Step(Step(Step(Run(acts), Authorize(pid, call, freshKey)), Advance(pid, Delivered)),
                           Draw(pid, newId)), Advance(pid, Delivered)), Advance(pid, Delivered))
  {
    hide Step, Run;
    var (a, b, c) := (Authorize(pid, call, freshKey), Advance(pid, Delivered), Draw(pid, newId));
    RunOne(acts, a);
    RunOne(acts + [a], b);
    RunOne(acts + [a] + [b], c);
    RunOne(acts + [a] + [b] + [c], b);
    RunOne(acts + [a] + [b] + [c] + [b], b);
    assert acts + [a] + [b] + [c] + [b] + [b] == acts + Whole(pid, call, freshKey, newId);
  }

  /** What a call makes of the payments under this key, and what it answers. */
  predicate CallEnds(w: World, w': World, pc: Pc, call: Call, key: string, newId: Id) {
    && pc.Done?
    && if call.amount <= 0 then w' == w && pc.reply == Failed(InvalidAmount)
       else if (call.user, key) in w.index then
         && w' == w && w.index[(call.user, key)] in w.payments
         && var p := w.payments[w.index[(call.user, key)]];
            pc.reply == if p.order != call.order || p.amount != call.amount then Failed(IdempotencyConflict)
                        else if p.status.Declined? then Failed(PaymentDeclined)
                        else Paid(w.index[(call.user, key)], p)
       else if newId == NIL_ID || call.order == NIL_ID || call.user == NIL_ID then
         w' == w && pc.reply == Failed(Storage)
       else if newId in w.payments then w' == w && pc.reply == Failed(IdempotencyConflict)
       else
         var approved := call.verdict.Approve?;
         var p := Payment(call.user, key, call.order, call.amount, if approved then Success else Declined);
         && w'.payments == w.payments[newId := p] && w'.index == w.index[(call.user, key) := newId]
         && w'.refunds == w.refunds
         && pc.reply == if approved then Paid(newId, p) else Failed(call.verdict.error)
  }

  /** A call of AuthorizeAndCapture when nothing goes wrong. Under a key that has a payment it
      answers with that one if it is for the same order and amount and was not declined, and
      changes nothing. Otherwise it stores a payment with what it was asked for: captured and
      reported if the gateway approves, declined and reported as the error if not. */
  lemma {:induction false} CallAlone(acts: seq<Action>, pid: nat, call: Call, freshKey: string, newId: Id)
    requires pid !in Run(acts).procs
    ensures var s' := Run(acts + Whole(pid, call, freshKey, newId));
            && pid in s'.procs
            && CallEnds(Run(acts).w, s'.w, s'.procs[pid], call, if call.key == "" then freshKey else call.key, newId)
  {
    RunWhole(acts, pid, call, freshKey, newId);
    Reachable(acts);
    var s := Run(acts);
    assert Indexed(s.w);
    hide *;
    StepsOfACall(s, pid, call, freshKey, newId);
    EndsOfACall(s.w, call, freshKey, newId);
  }

  lemma EndsOfACall(w: World, call: Call, freshKey: string, newId: Id)
    requires Indexed(w)
    ensures var (w', pc') := OfACall(w, Keyed(call, freshKey), newId);
            CallEnds(w, w', pc', call, if call.key == "" then freshKey else call.key, newId)
  {
  }

  lemma StepsOfACall(s: Sys, pid: nat, call: Call, freshKey: string, newId: Id)
    requires pid !in s.procs
    ensures var s1 := Step(s, Authorize(pid, call, freshKey));
            var s2 := Step(Step(Step(Step(s1, Advance(pid, Delivered)), Draw(pid, newId)), Advance(pid, Delivered)),
                           Advance(pid, Delivered));
            pid in s2.procs && (s2.w, s2.procs[pid]) == OfACall(s.w, Keyed(call, freshKey), newId)
  {
  }

  function OfACall(w: World, call: Call, newId: Id): (World, Pc) {
    if call.amount <= 0 then (w, Done(Failed(InvalidAmount)))
    else if Existing(w, call).Some? then
      (w, Done(Replay(call, Existing(w, call).value, w.payments[Existing(w, call).value])))
    else
      var (w', pc') := Act(w, AuthCreate(call, newId), Delivered);
      Act(w', pc', Delivered)
  }

  /** What a refund of this amount makes of the payments, and what it answers. */
  predicate RefundEnds(w: World, w': World, reply: Reply, id: Id, amount: int) {
    if amount > 0 && id in w.payments && w.payments[id].status.Success? && amount <= w.payments[id].amount then
      && w'.payments == w.payments[id := w.payments[id].(status := Refunded)]
      && w'.index == w.index && w'.refunds == w.refunds[id := [amount]]
      && reply == RefundMade(amount)
    else
      && w' == w
      && reply == Failed(if amount <= 0 then InvalidAmount
                         else if id !in w.payments then NotFound
                         else if w.payments[id].status.Refunded? then AlreadyRefunded
                         else if w.payments[id].status.Declined? then CannotBeRefunded
                         else InvalidAmount)
  }

  /** A call of Refund when nothing goes wrong: a captured payment that has not been refunded is
      refunded, with one record of the amount asked for, if that is positive and no more than was
      captured; in every other case nothing changes and the reply says why. */
  lemma {:induction false} RefundAlone(acts: seq<Action>, pid: nat, id: Id, amount: int)
    requires pid !in Run(acts).procs
    ensures var deliver := Advance(pid, Delivered);
            var s' := Run(acts + [Refund(pid, id, amount)] + [deliver] + [deliver] + [deliver]);
            && pid in s'.procs && s'.procs[pid].Done?
            && RefundEnds(Run(acts).w, s'.w, s'.procs[pid].reply, id, amount)
  {
    var s := Run(acts);
    var (a, b) := (Refund(pid, id, amount), Advance(pid, Delivered));
    RunOne(acts, a);
    RunOne(acts + [a], b);
    RunOne(acts + [a] + [b], b);
    RunOne(acts + [a] + [b] + [b], b);
    Reachable(acts);
    assert Accounted(s.w) && Sound(s.w);
    hide Run, Inv, Indexed, RefundEnds, Step;
    StepsOfARefund(s, pid, id, amount);
  }

  lemma StepsOfARefund(s: Sys, pid: nat, id: Id, amount: int)
    requires pid !in s.procs && Sound(s.w) && Accounted(s.w)
    ensures var deliver := Advance(pid, Delivered);
            var s' := Step(Step(Step(Step(s, Refund(pid, id, amount)), deliver), deliver), deliver);
            && pid in s'.procs && s'.procs[pid].Done?
            && RefundEnds(s.w, s'.w, s'.procs[pid].reply, id, amount)
  {
    assert Recorded(s.w, id) ==> id in s.w.payments && s.w.payments[id].status.Refunded?;
    assert [] + [amount] == [amount];
    hide Accounted;
  }

  // ---- the tokens that are refused ------------------------------------------------------

  /** The character, or its lower case, is this ASCII one. */
  predicate SameLetter(c: char, l: char) {
    c == l || ('A' <= c <= 'Z' && c as int + 32 == l as int) || (c == '\U{212A}' && l == 'k')
    || (c == '\U{130}' && l == 'i')
  }

  predicate SameLetters(s: string, word: string) {
    |s| == |word| && forall k :: 0 <= k < |s| ==> SameLetter(s[k], word[k])
  }

  /** The token is the word up to case, with white space around it. */
  ghost predicate Reads(token: string, word: string) {
    exists i: nat, j: nat :: Framed(token, i, j) && SameLetters(token[i..j], word)
  }

  ghost predicate ReadsOneOf(token: string, words: set<string>) {
    exists word :: word in words && Reads(token, word)
  }

  predicate Lettered(word: string) {
    word != "" && forall k :: 0 <= k < |word| ==> 'a' <= word[k] <= 'z' || word[k] == '_'
  }

  lemma LowerIs(t: string, word: string)
    requires Lettered(word)
    ensures Lower(t) == word <==> SameLetters(t, word)
    ensures SameLetters(t, word) ==> Bare(t)
  {
    if SameLetters(t, word) {
      assert SameLetter(t[0], word[0]) && SameLetter(t[|t| - 1], word[|t| - 1]);
      assert forall k :: 0 <= k < |t| ==> SameLetter(t[k], word[k]) ==> Lower(t)[k] == word[k];
    }
    if Lower(t) == word {
      forall k | 0 <= k < |t| ensures SameLetter(t[k], word[k]) {
        assert Lower(t)[k] == word[k];
      }
    }
  }

  lemma ReadsIff(token: string, word: string)
    requires Lettered(word)
    ensures Reads(token, word) <==> Lower(TrimSpace(token)) == word
  {
    TrimIs(token);
    hide SameLetters, Lettered, Bare, Lower, TrimSpace, IsSpace;
    var t := TrimSpace(token);
    var i: nat, j: nat :| Framed(token, i, j) && token[i..j] == t;
    LowerIs(t, word);
    if Reads(token, word) {
      var k: nat, l: nat :| Framed(token, k, l) && SameLetters(token[k..l], word);
      LowerIs(token[k..l], word);
      OneFrame(token, k, l, i, j);
    }
  }

  const DECLINING: set<string> := {
    "fail", "decline", "force_failure", "sim_tok_decline", "decline_insufficient_funds", "decline_fraud",
    "insufficient_funds", "fraud", "network_error"}

  const TIMING_OUT: set<string> := {"timeout", "timeout_latency"}

  lemma ReadsOneOfIff(token: string, words: set<string>)
    requires forall word :: word in words ==> Lettered(word)
    ensures ReadsOneOf(token, words) <==> Lower(TrimSpace(token)) in words
  {
    hide Reads, Lettered, Lower, TrimSpace;
    var t := Lower(TrimSpace(token));
    if t in words { ReadsIff(token, t); }
    if ReadsOneOf(token, words) {
      var word :| word in words && Reads(token, word);
      ReadsIff(token, word);
    }
  }

  lemma ShortWords()
    ensures Lettered("fail") && Lettered("fraud") && Lettered("decline") && Lettered("timeout")
    ensures Lettered("network_error") && Lettered("decline_fraud")
  {
  }

  lemma LongWords()
    ensures Lettered("force_failure") && Lettered("sim_tok_decline") && Lettered("timeout_latency")
    ensures Lettered("decline_insufficient_funds") && Lettered("insufficient_funds")
  {
  }

  lemma AllLettered()
    ensures forall word :: word in DECLINING + TIMING_OUT ==> Lettered(word)
  {
    hide Lettered;
    ShortWords();
    LongWords();
  }

  /** A call is refused exactly for these tokens, written in any case and with white space around
      them, each with its error; every other token is approved. */
  lemma {:induction false} VerdictIs(token: string)
    ensures VerdictOf(token) == Refuse(PaymentDeclined) <==> ReadsOneOf(token, DECLINING)
    ensures VerdictOf(token) == Refuse(Timeout) <==> ReadsOneOf(token, TIMING_OUT)
    ensures VerdictOf(token).Approve? <==> !ReadsOneOf(token, DECLINING) && !ReadsOneOf(token, TIMING_OUT)
  {
    AllLettered();
    assert DECLINING !! TIMING_OUT;
    hide Reads, ReadsOneOf, Lettered, Lower, TrimSpace;
    ReadsOneOfIff(token, DECLINING);
    ReadsOneOfIff(token, TIMING_OUT);
  }
}
