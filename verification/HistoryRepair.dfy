/** Splicing synthetic results behind tool calls an interruption left unanswered. */
module HistoryRepair {

  /** A call id; zero is the empty id. */
  type CallId = nat

  /** A transcript turn, as far as tool rounds are concerned. `body` is the rest of it.
      A passing turn (transcript-only, presentational or steering) interrupts no round; a breaking one does. */
  datatype Turn =
    | Assistant(calls: seq<CallId>, body: nat)
    | Results(answers: seq<CallId>, body: nat)
    | Passing(body: nat)
    | Breaking(body: nat)

  predicate Breaks(t: Turn) {
    t.Assistant? || t.Breaking?
  }

  /** Calls with an id. */
  function Named(calls: seq<CallId>): seq<CallId> {
    if calls == [] then []
    else Named(calls[..|calls| - 1]) + (if calls[|calls| - 1] != 0 then [calls[|calls| - 1]] else [])
  }

  /** The calls a result turn leaves pending. */
  function Without(pending: seq<CallId>, id: CallId): seq<CallId> {
    if pending == [] then []
    else Without(pending[..|pending| - 1], id) + (if pending[|pending| - 1] != id then [pending[|pending| - 1]] else [])
  }

  function Answer(pending: seq<CallId>, answers: seq<CallId>): seq<CallId> {
    if answers == [] then pending
    else
      var id := answers[|answers| - 1];
      var left := Answer(pending, answers[..|answers| - 1]);
      if id == 0 then left else Without(left, id)
  }

  /** What a turn leaves of the pending calls. */
  function After(before: seq<CallId>, t: Turn): seq<CallId> {
    match t
    case Assistant(calls, _) => Named(calls)
    case Results(answers, _) => Answer(before, answers)
    case Passing(_) => before
    case Breaking(_) => []
  }

  /** Calls still unanswered at the end of a history. */
  function Pending(h: seq<Turn>): seq<CallId> {
    if h == [] then [] else After(Pending(h[..|h| - 1]), h[|h| - 1])
  }

  function Synthetic(pending: seq<CallId>): Turn {
    Results(pending, 0)
  }

  /** The synthetic turn owed before `t`, if any. */
  function Splice(h: seq<Turn>): seq<Turn> {
    if Pending(h) == [] then [] else [Synthetic(Pending(h))]
  }

  /** What goes between a history and its next turn. */
  function Gap(before: seq<Turn>, t: Turn): (g: seq<Turn>)
    ensures |g| <= 1 && (g != [] <==> Breaks(t) && Pending(before) != [])
    ensures g != [] ==> g == [Synthetic(Pending(before))]
  {
    if Breaks(t) then Splice(before) else []
  }

  /** A history with every interrupted round but the last completed. */
  function Spliced(h: seq<Turn>): seq<Turn> {
    if h == [] then []
    else Spliced(h[..|h| - 1]) + (Gap(h[..|h| - 1], h[|h| - 1]) + [h[|h| - 1]])
  }

  function Repaired(h: seq<Turn>): seq<Turn> {
    Spliced(h) + Splice(h)
  }

  /** Where the synthetic turns landed, in the repaired history. */
  function SplicedAt(h: seq<Turn>): seq<nat> {
    if h == [] then []
    else SplicedAt(h[..|h| - 1]) + (if Gap(h[..|h| - 1], h[|h| - 1]) != [] then [|Spliced(h[..|h| - 1])|] else [])
  }

  function InsertedAt(h: seq<Turn>): seq<nat> {
    SplicedAt(h) + (if Splice(h) != [] then [|Spliced(h)|] else [])
  }

  // ---- The loop ----

  method RemovePending(pending: seq<CallId>, id: CallId) returns (left: seq<CallId>)
    ensures left == if id == 0 then pending else Without(pending, id)
  {
    if id == 0 { return pending; }
    left := [];
    for k := 0 to |pending|
      invariant left == Without(pending[..k], id)
    {
      assert pending[..k + 1][..k] == pending[..k];
      if pending[k] != id { left := left + [pending[k]]; }
    }
    assert pending[..|pending|] == pending;
  }

  method AssistantToolCalls(calls: seq<CallId>) returns (named: seq<CallId>)
    ensures named == Named(calls)
  {
    named := [];
    for k := 0 to |calls|
      invariant named == Named(calls[..k])
    {
      assert calls[..k + 1][..k] == calls[..k];
      if calls[k] != 0 { named := named + [calls[k]]; }
    }
    assert calls[..|calls|] == calls;
  }

  method AnswerAll(pending: seq<CallId>, answers: seq<CallId>) returns (left: seq<CallId>)
    ensures left == Answer(pending, answers)
  {
    left := pending;
    for k := 0 to |answers|
      invariant left == Answer(pending, answers[..k])
    {
      assert answers[..k + 1][..k] == answers[..k];
      left := RemovePending(left, answers[k]);
    }
    assert answers[..|answers|] == answers;
  }

  lemma {:induction false} SplicedCounts(h: seq<Turn>)
    ensures |Spliced(h)| == |h| + |SplicedAt(h)|
  {
    hide Gap;
    if h != [] { SplicedCounts(h[..|h| - 1]); }
  }

  lemma {:induction false} UnsplicedIsSame(h: seq<Turn>)
    requires SplicedAt(h) == []
    ensures Spliced(h) == h
  {
    if h != [] {
      hide Gap;
      UnsplicedIsSame(h[..|h| - 1]);
      assert h[..|h| - 1] + ([] + [h[|h| - 1]]) == h;
    }
  }

  lemma SplicedAtSplices(h: seq<Turn>)
    ensures |SplicedAt(h)| == 0 ==> Spliced(h) == h
    ensures |Spliced(h)| == |h| + |SplicedAt(h)|
  {
    hide Spliced, SplicedAt;
    SplicedCounts(h);
    if SplicedAt(h) == [] { UnsplicedIsSame(h); }
  }

  /** One turn of the pass: the copied output and the span not yet copied stand for the spliced history. */
  lemma TurnTaken(history: seq<Turn>, i: nat, out: seq<Turn>, copied: nat)
    requires copied <= i < |history| && out + history[copied..i] == Spliced(history[..i]) + Gap(history[..i], history[i])
    ensures out + history[copied..i + 1] == Spliced(history[..i + 1])
    ensures Pending(history[..i + 1]) == After(Pending(history[..i]), history[i])
    ensures SplicedAt(history[..i + 1]) == SplicedAt(history[..i]) + (if Gap(history[..i], history[i]) != [] then [|Spliced(history[..i])|] else [])
  {
    hide Gap, After, Breaks;
    assert history[..i + 1][..i] == history[..i] && history[..i + 1][i] == history[i];
    assert history[copied..i + 1] == history[copied..i] + [history[i]];
    assert out + history[copied..i + 1] == (out + history[copied..i]) + [history[i]];
    assert Spliced(history[..i + 1]) == Spliced(history[..i]) + (Gap(history[..i], history[i]) + [history[i]]);
  }

  method NextPending(pending: seq<CallId>, t: Turn) returns (left: seq<CallId>)
    ensures left == After(pending, t)
  {
    match t {
      case Assistant(calls, _) => left := AssistantToolCalls(calls);
      case Results(answers, _) => left := AnswerAll(pending, answers);
      case Passing(_) => left := pending;
      case Breaking(_) => left := [];
    }
  }

  /** One pass over the history; untouched spans are copied only when something is spliced in. */
  method Repair(history: seq<Turn>) returns (out: seq<Turn>, insertedAt: seq<nat>)
    ensures out == Repaired(history) && insertedAt == InsertedAt(history)
  {
    hide After, Spliced, SplicedAt, Pending;
    var pending, copied := [], 0;
    out, insertedAt := [], [];
    NothingYet(history);
    for i := 0 to |history|
      invariant 0 <= copied <= i && pending == Pending(history[..i]) && insertedAt == SplicedAt(history[..i])
      invariant out + history[copied..i] == Spliced(history[..i])
    {
      var turn := history[i];
      if Breaks(turn) && pending != [] {
        out := out + history[copied..i];
        copied := i;
        insertedAt := insertedAt + [|out|];
        out := out + [Synthetic(pending)];
      }
      assert out + history[copied..i] == Spliced(history[..i]) + Gap(history[..i], turn);
      TurnTaken(history, i, out, copied);
      pending := NextPending(pending, turn);
    }
    assert history[..|history|] == history;
    SplicedAtSplices(history);
    if pending != [] {
      out := out + history[copied..];
      copied := |history|;
      insertedAt := insertedAt + [|out|];
      out := out + [Synthetic(pending)];
    } else if insertedAt == [] {
      return history, [];
    }
    out := out + history[copied..];
  }

  lemma NothingYet(history: seq<Turn>)
    ensures Pending(history[..0]) == [] && SplicedAt(history[..0]) == [] && Spliced(history[..0]) == []
  {
  }

  // ---- Nothing is lost ----

  /** A history without the turns at the given ascending indices. */
  function Strip(out: seq<Turn>, at: seq<nat>): seq<Turn> {
    if out == [] then []
    else if at != [] && at[|at| - 1] == |out| - 1 then Strip(out[..|out| - 1], at[..|at| - 1])
    else Strip(out[..|out| - 1], at) + [out[|out| - 1]]
  }

  ghost predicate Ascends(at: seq<nat>, bound: nat) {
    (forall j, k | 0 <= j < k < |at| :: at[j] < at[k]) && forall k | 0 <= k < |at| :: at[k] < bound
  }

  lemma StripLast(out: seq<Turn>, at: seq<nat>, t: Turn)
    requires forall k | 0 <= k < |at| :: at[k] < |out|
    ensures Strip(out + [t], at) == Strip(out, at) + [t]
    ensures Strip(out + [t], at + [|out|]) == Strip(out, at)
  {
    assert (out + [t])[..|out|] == out;
    assert (at + [|out|])[..|at|] == at;
  }

  lemma {:induction false} SplicedStrips(h: seq<Turn>)
    ensures Ascends(SplicedAt(h), |Spliced(h)|) && Strip(Spliced(h), SplicedAt(h)) == h
  {
    if h != [] {
      SplicedStrips(h[..|h| - 1]);
      StripStep(Spliced(h[..|h| - 1]), SplicedAt(h[..|h| - 1]), Gap(h[..|h| - 1], h[|h| - 1]), h[|h| - 1]);
    }
  }

  lemma StripStep(out: seq<Turn>, at: seq<nat>, gap: seq<Turn>, t: Turn)
    requires Ascends(at, |out|) && |gap| <= 1
    ensures var more := if gap != [] then [|out|] else [];
            Ascends(at + more, |out + (gap + [t])|) && Strip(out + (gap + [t]), at + more) == Strip(out, at) + [t]
  {
    hide Strip;
    if gap != [] {
      StripLast(out, at, gap[0]);
      StripLast(out + gap, at + [|out|], t);
      assert out + (gap + [t]) == (out + gap) + [t] && out + gap == out + [gap[0]];
    } else {
      StripLast(out, at, t);
      assert out + (gap + [t]) == out + [t] && at + [] == at;
    }
  }

  /** Taking the reported insertions out gives the original history back. */
  lemma RepairOnlyInserts(h: seq<Turn>)
    ensures Ascends(InsertedAt(h), |Repaired(h)|) && Strip(Repaired(h), InsertedAt(h)) == h
  {
    SplicedStrips(h);
    hide Spliced, SplicedAt, Strip, Pending;
    if Splice(h) != [] { StripLast(Spliced(h), SplicedAt(h), Splice(h)[0]); }
    else { assert Spliced(h) + [] == Spliced(h) && SplicedAt(h) + [] == SplicedAt(h); }
  }

  // ---- A second pass repairs nothing ----

  lemma {:induction false} WithoutIs(pending: seq<CallId>, id: CallId, c: CallId)
    ensures c in Without(pending, id) <==> c in pending && c != id
  {
    if pending != [] { WithoutIs(pending[..|pending| - 1], id, c); }
  }

  lemma {:induction false} AnswerIs(pending: seq<CallId>, answers: seq<CallId>, c: CallId)
    ensures c in Answer(pending, answers) <==> c in pending && (c == 0 || c !in answers)
  {
    if answers != [] {
      var id, left := answers[|answers| - 1], Answer(pending, answers[..|answers| - 1]);
      AnswerIs(pending, answers[..|answers| - 1], c);
      if id != 0 { WithoutIs(left, id, c); }
    }
  }

  lemma {:induction false} NamedIs(calls: seq<CallId>, c: CallId)
    ensures c in Named(calls) <==> c in calls && c != 0
  {
    if calls != [] { NamedIs(calls[..|calls| - 1], c); }
  }

  lemma {:induction false} PendingIsNamed(h: seq<Turn>)
    ensures 0 !in Pending(h)
  {
    if h != [] {
      PendingIsNamed(h[..|h| - 1]);
      match h[|h| - 1]
      case Assistant(calls, _) => NamedIs(calls, 0);
      case Results(answers, _) => AnswerIs(Pending(h[..|h| - 1]), answers, 0);
      case _ =>
    }
  }

  /** A synthetic turn answers everything pending. */
  lemma SyntheticAnswers(h: seq<Turn>)
    ensures Pending(h + [Synthetic(Pending(h))]) == []
  {
    var p := Pending(h);
    assert (h + [Synthetic(p)])[..|h|] == h;
    PendingIsNamed(h);
    if Answer(p, p) != [] { AnswerIs(p, p, Answer(p, p)[0]); }
  }

  lemma SplicedSnoc(h: seq<Turn>, t: Turn)
    ensures Spliced(h + [t]) == Spliced(h) + (Gap(h, t) + [t])
    ensures Pending(h + [t]) == After(Pending(h), t)
  {
    assert (h + [t])[..|h|] == h;
  }

  lemma {:induction false} SplicedIsStable(h: seq<Turn>)
    ensures Spliced(Spliced(h)) == Spliced(h) && Pending(Spliced(h)) == Pending(h)
  {
    if h != [] {
      SplicedIsStable(h[..|h| - 1]);
      StableStep(h[..|h| - 1], h[|h| - 1]);
      assert h[..|h| - 1] + [h[|h| - 1]] == h;
    }
  }

  lemma StableStep(before: seq<Turn>, t: Turn)
    requires Spliced(Spliced(before)) == Spliced(before) && Pending(Spliced(before)) == Pending(before)
    ensures Spliced(Spliced(before + [t])) == Spliced(before + [t]) && Pending(Spliced(before + [t])) == Pending(before + [t])
  {
    hide Spliced, Pending, After;
    var out, gap := Spliced(before), Gap(before, t);
    SplicedSnoc(before, t);
    if gap != [] {
      var syn := gap[0];
      SplicedSnoc(out, syn);
      SyntheticAnswers(out);
      SplicedSnoc(out + [syn], t);
      BreakingForgets(Pending(before), Pending(out + [syn]), t);
      assert out + (gap + [t]) == (out + [syn]) + [t];
      assert out + ([] + [syn]) == out + [syn] && (out + [syn]) + ([] + [t]) == (out + [syn]) + [t];
    } else {
      SplicedSnoc(out, t);
      assert out + (gap + [t]) == out + [t];
    }
  }

  lemma BreakingForgets(p: seq<CallId>, q: seq<CallId>, t: Turn)
    requires Breaks(t)
    ensures After(p, t) == After(q, t)
  {
  }

  /** A repaired history has nothing pending, and repairing it again changes nothing. */
  lemma RepairIsIdempotent(h: seq<Turn>)
    ensures Pending(Repaired(h)) == [] && Repaired(Repaired(h)) == Repaired(h) && InsertedAt(Repaired(h)) == []
  {
    var out := Spliced(h);
    SplicedIsStable(h);
    hide Spliced, SplicedAt, Pending, After;
    if Splice(h) != [] {
      SyntheticAnswers(out);
      SplicedSnoc(out, Synthetic(Pending(h)));
      assert out + ([] + [Synthetic(Pending(h))]) == Repaired(h);
    } else {
      assert Repaired(h) == out;
    }
    SplicedAtSplices(Repaired(h));
  }

  // ---- Every call is answered in its round ----

  /** The call `c` of the turn at `a` has a result before the next turn that breaks its round. */
  ghost predicate Answered(h: seq<Turn>, a: nat, c: CallId) {
    exists r :: a < r < |h| && h[r].Results? && c in h[r].answers && forall j | a < j < r :: !Breaks(h[j])
  }

  /** Unanswered so far, and its round still open. */
  ghost predicate Waiting(h: seq<Turn>, a: nat, c: CallId) {
    c in Pending(h) && forall j | a < j < |h| :: !Breaks(h[j])
  }

  lemma {:induction false} AnsweredOrWaiting(h: seq<Turn>, a: nat, c: CallId)
    requires Spliced(h) == h && a < |h| && h[a].Assistant? && c in h[a].calls && c != 0
    ensures Answered(h, a, c) || Waiting(h, a, c)
  {
    var before, t := h[..|h| - 1], h[|h| - 1];
    UnsplicedPrefix(h);
    if a == |before| {
      NamedIs(t.calls, c);
    } else {
      assert before[a] == h[a];
      AnsweredOrWaiting(before, a, c);
      if Answered(before, a, c) {
        var r :| a < r < |before| && before[r].Results? && c in before[r].answers && forall j | a < j < r :: !Breaks(before[j]);
        assert h[r] == before[r] && forall j | a < j < r :: h[j] == before[j];
      } else {
        assert forall j | a < j < |before| :: h[j] == before[j];
        if t.Results? {
          AnswerIs(Pending(before), t.answers, c);
          assert c in t.answers ==> h[|before|] == t;
        }
      }
    }
  }

  /** A history nothing was spliced into has no splice in a prefix, nor before its last turn. */
  lemma UnsplicedPrefix(h: seq<Turn>)
    requires Spliced(h) == h && h != []
    ensures Spliced(h[..|h| - 1]) == h[..|h| - 1]
    ensures Breaks(h[|h| - 1]) ==> Pending(h[..|h| - 1]) == []
  {
    var before := h[..|h| - 1];
    SplicedAtSplices(h);
    SplicedAtSplices(before);
  }

  /** After a repair every tool call with an id has its result before the next round-breaking turn. */
  lemma EveryCallIsAnswered(h: seq<Turn>, a: nat, c: CallId)
    requires a < |Repaired(h)| && Repaired(h)[a].Assistant? && c in Repaired(h)[a].calls && c != 0
    ensures Answered(Repaired(h), a, c)
  {
    RepairIsIdempotent(h);
    SplicedAtSplices(Repaired(h));
    AnsweredOrWaiting(Repaired(h), a, c);
  }

  // ---- The baseline ----

  function Shift(at: seq<nat>, b: nat): nat {
    if at == [] then b
    else
      var b' := Shift(at[..|at| - 1], b);
      if at[|at| - 1] <= b' then b' + 1 else b'
  }

  method ShiftBaseline(insertedAt: seq<nat>, baseline: nat) returns (b: nat)
    ensures b == Shift(insertedAt, baseline)
  {
    b := baseline;
    for k := 0 to |insertedAt|
      invariant b == Shift(insertedAt[..k], baseline)
    {
      assert insertedAt[..k + 1][..k] == insertedAt[..k];
      if insertedAt[k] <= b { b := b + 1; }
    }
    assert insertedAt[..|insertedAt|] == insertedAt;
  }

  /** Insertions past a position leave it alone. */
  lemma {:induction false} LaterInsertions(at: seq<nat>, more: seq<nat>, b: nat)
    requires forall k | 0 <= k < |more| :: more[k] > Shift(at, b)
    ensures Shift(at + more, b) == Shift(at, b)
  {
    if more == [] {
      assert at + more == at;
    } else {
      LaterInsertions(at, more[..|more| - 1], b);
      assert (at + more)[..|at + more| - 1] == at + more[..|more| - 1];
    }
  }

  /** The insertions made after the first `k` turns. */
  function LaterAt(h: seq<Turn>, k: nat): seq<nat>
    requires k <= |h|
  {
    if k == |h| then []
    else LaterAt(h[..|h| - 1], k) + (if Gap(h[..|h| - 1], h[|h| - 1]) != [] then [|Spliced(h[..|h| - 1])|] else [])
  }

  lemma {:induction false} SplicedGrows(h: seq<Turn>, k: nat)
    requires k <= |h|
    ensures Spliced(h[..k]) <= Spliced(h) && SplicedAt(h) == SplicedAt(h[..k]) + LaterAt(h, k)
    ensures forall j | 0 <= j < |LaterAt(h, k)| :: LaterAt(h, k)[j] >= |Spliced(h[..k])|
  {
    hide Gap;
    if k == |h| {
      assert h[..k] == h;
    } else {
      SplicedGrows(h[..|h| - 1], k);
      assert h[..|h| - 1][..k] == h[..k];
    }
  }

  /** Where the turns before `b`, and those spliced among them, end. */
  lemma {:induction false} ShiftCounts(h: seq<Turn>, b: nat)
    requires |h| <= b
    ensures Shift(SplicedAt(h), b) == b + |SplicedAt(h)|
  {
    hide Gap;
    if h != [] {
      var before := h[..|h| - 1];
      ShiftCounts(before, b);
      SplicedAtSplices(before);
      if SplicedAt(h) != SplicedAt(before) {
        assert SplicedAt(h)[..|SplicedAt(h)| - 1] == SplicedAt(before);
      }
    }
  }

  /** The shifted baseline points at the turn it pointed at before, or past the end as before. */
  lemma BaselineFollowsItsTurn(h: seq<Turn>, b: nat)
    requires b <= |h|
    ensures var b' := Shift(InsertedAt(h), b);
            b' <= |Repaired(h)| && (b < |h| ==> b' < |Repaired(h)| && Repaired(h)[b'] == h[b]) && (b == |h| ==> b' == |Repaired(h)|)
  {
    hide Spliced, SplicedAt, InsertedAt, Repaired;
    if b == |h| { EndFollows(h); } else { TurnFollows(h, b); }
  }

  lemma EndFollows(h: seq<Turn>)
    ensures Shift(InsertedAt(h), |h|) == |Repaired(h)|
  {
    hide Spliced, SplicedAt, Pending;
    ShiftCounts(h, |h|);
    SplicedAtSplices(h);
    if Splice(h) != [] { assert InsertedAt(h)[..|InsertedAt(h)| - 1] == SplicedAt(h); }
    else { assert InsertedAt(h) == SplicedAt(h); }
  }

  lemma TurnFollows(h: seq<Turn>, b: nat)
    requires b < |h|
    ensures var b' := Shift(InsertedAt(h), b); b' < |Repaired(h)| && Repaired(h)[b'] == h[b]
  {
    hide Spliced, SplicedAt, Pending, LaterAt, Splice;
    var upto := h[..b + 1];
    TurnIsLast(h, b);
    SplicedGrows(h, b + 1);
    var tail := if Splice(h) != [] then [|Spliced(h)|] else [];
    assert InsertedAt(h) == SplicedAt(upto) + (LaterAt(h, b + 1) + tail);
    hide Shift;
    LaterInsertions(SplicedAt(upto), LaterAt(h, b + 1) + tail, b);
    assert Repaired(h)[|Spliced(upto)| - 1] == Spliced(upto)[|Spliced(upto)| - 1];
  }

  /** In the history spliced up to and including turn `b`, that turn comes last, where the baseline lands. */
  lemma TurnIsLast(h: seq<Turn>, b: nat)
    requires b < |h|
    ensures var s := Spliced(h[..b + 1]); s != [] && s[|s| - 1] == h[b] && Shift(SplicedAt(h[..b + 1]), b) == |s| - 1
  {
    var before, t := h[..b], h[b];
    assert h[..b + 1] == before + [t];
    SplicedSnoc(before, t);
    SplicedAtSnoc(before, t);
    ShiftCounts(before, b);
    SplicedCounts(before);
    hide Spliced, SplicedAt, Gap, Pending, After;
    var at := SplicedAt(before);
    if Gap(before, t) != [] { ShiftSnoc(at, |Spliced(before)|, b); } else { assert at + [] == at; }
  }

  lemma SplicedAtSnoc(h: seq<Turn>, t: Turn)
    ensures SplicedAt(h + [t]) == SplicedAt(h) + (if Gap(h, t) != [] then [|Spliced(h)|] else [])
  {
    hide Gap;
    assert (h + [t])[..|h|] == h;
  }

  lemma ShiftSnoc(at: seq<nat>, k: nat, b: nat)
    ensures Shift(at + [k], b) == if k <= Shift(at, b) then Shift(at, b) + 1 else Shift(at, b)
  {
    assert (at + [k])[..|at|] == at;
  }
}
