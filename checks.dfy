/**
 * The permission check chain a hybrid command runs when it is invoked as an
 * application command (`HybridAppCommand._check_can_run`). Every check is an
 * abstract outcome for the interaction at hand; the chain runs them in a
 * fixed order, some only under conditions, and stops at the first one that
 * does not pass.
 */
module Checks {
  import opened Errors

  /** What one check gives: it passes, returns a falsy value, or raises. */
  datatype Verdict = Pass | Fail | Error(error: Exc)

  /** The `cog_check` attribute of a binding. */
  datatype CogCheck =
    | NoCogCheck            // the binding has no `cog_check` attribute at all
    | Inherited             // the base Cog's `cog_check`, not overridden
    | Overridden(verdict: Verdict)

  /**
   * A cog or group a command may belong to. `id` is the object's identity,
   * so `is` compares ids. `interactionCheck` is None when the
   * object has no `interaction_check` attribute, and otherwise what that
   * check gives for this interaction.
   */
  datatype Owner = Owner(id: nat, interactionCheck: Option<Verdict>, cogCheck: CogCheck)

  /** `bot.can_run(ctx, call_once=True)` and `bot.can_run(ctx)`. */
  datatype BotChecks = BotChecks(globalOnce: Verdict, global: Verdict)

  /**
   * The attributes of a HybridAppCommand that the chain reads: its parent
   * group, its binding, its own checks and the wrapped command's checks.
   */
  datatype AppCommandView = AppCommandView(
    parent: Option<Owner>,
    binding: Option<Owner>,
    checks: seq<Verdict>,
    wrappedChecks: seq<Verdict>)

  /** The places in the chain at which a check can run. */
  datatype CheckPoint =
    | GlobalOnce
    | Global
    | ParentInteraction
    | BindingInteraction
    | CogCheckPoint
    | AppCheck(index: nat)
    | CommandCheck(index: nat)

  datatype Scheduled = Scheduled(point: CheckPoint, verdict: Verdict)

  /** The parent's check runs when there is a parent that is not the binding. */
  predicate ParentRuns(cmd: AppCommandView): (r: bool)
    // a command without a parent, or whose parent is its binding, skips the parent check
    ensures r <==> cmd.parent.Some? && (cmd.binding.None? || cmd.binding.value.id != cmd.parent.value.id)
  {
    cmd.parent.Some? && !(cmd.binding.Some? && cmd.binding.value.id == cmd.parent.value.id)
  }

  /** Looking up a missing check attribute raises AttributeError. */
  function AttributeOr(check: Option<Verdict>, attribute: string): Verdict {
    match check
    case Some(v) => v
    case None => Error(AttributeError(attribute))
  }

  function ParentSegment(cmd: AppCommandView): seq<Scheduled> {
    if ParentRuns(cmd)
    then [Scheduled(ParentInteraction, AttributeOr(cmd.parent.value.interactionCheck, "interaction_check"))]
    else []
  }

  /** The binding's `interaction_check` is skipped when the attribute is missing. */
  function BindingSegment(cmd: AppCommandView): seq<Scheduled> {
    if cmd.binding.Some? && cmd.binding.value.interactionCheck.Some?
    then [Scheduled(BindingInteraction, cmd.binding.value.interactionCheck.value)]
    else []
  }

  /** The cog check runs only when overridden; a missing attribute raises. */
  function CogSegment(cmd: AppCommandView): seq<Scheduled> {
    if cmd.binding.None? then []
    else
      match cmd.binding.value.cogCheck
      case NoCogCheck => [Scheduled(CogCheckPoint, Error(AttributeError("cog_check")))]
      case Inherited => []
      case Overridden(v) => [Scheduled(CogCheckPoint, v)]
  }

  function ListPoint(i: nat, app: bool): CheckPoint {
    if app then AppCheck(i) else CommandCheck(i)
  }

  function ListSegment(verdicts: seq<Verdict>, app: bool): (s: seq<Scheduled>)
    ensures |s| == |verdicts|
    ensures forall i :: 0 <= i < |s| ==> s[i] == Scheduled(ListPoint(i, app), verdicts[i])
  {
    seq(|verdicts|, i requires 0 <= i < |verdicts| => Scheduled(ListPoint(i, app), verdicts[i]))
  }

  function Head(bot: BotChecks): seq<Scheduled> {
    [Scheduled(GlobalOnce, bot.globalOnce), Scheduled(Global, bot.global)]
  }

  /** Every check that would run if all passed, in the order the chain runs them. */
  function Schedule(cmd: AppCommandView, bot: BotChecks): (s: seq<Scheduled>)
    // the bot's two checks always come first
    ensures |s| >= 2 && s[0] == Scheduled(GlobalOnce, bot.globalOnce) && s[1] == Scheduled(Global, bot.global)
  {
    Head(bot) + ParentSegment(cmd) + BindingSegment(cmd) + CogSegment(cmd)
    + ListSegment(cmd.checks, true) + ListSegment(cmd.wrappedChecks, false)
  }

  /** The first `k` checks of `s` all pass. */
  ghost predicate PassedBefore(s: seq<Scheduled>, k: nat) {
    k <= |s| && forall i :: 0 <= i < k ==> s[i].verdict == Pass
  }

  /**
   * Running the first `n` checks of `s` and stopping gives `r`: either all
   * of `s` ran and passed and the result is Pass, or the `n`-th check is the
   * first that did not pass and its verdict is the result.
   */
  ghost predicate ShortCircuit(s: seq<Scheduled>, r: Verdict, n: nat) {
    if r == Pass then n == |s| && PassedBefore(s, n)
    else 0 < n <= |s| && s[n - 1].verdict == r && PassedBefore(s, n - 1)
  }

  /** `trace` names the points of the first `|trace|` checks of `s`. */
  ghost predicate Ran(s: seq<Scheduled>, trace: seq<CheckPoint>) {
    |trace| <= |s| && forall i :: 0 <= i < |trace| ==> trace[i] == s[i].point
  }

  /** The chain has run, and passed, the first `|trace|` checks of `s`. */
  ghost predicate Progress(s: seq<Scheduled>, trace: seq<CheckPoint>) {
    PassedBefore(s, |trace|) && Ran(s, trace)
  }

  /** Where each segment of the schedule sits. */
  lemma ScheduleLayout(cmd: AppCommandView, bot: BotChecks)
    ensures var s := Schedule(cmd, bot);
            var o2 := 2 + |ParentSegment(cmd)|;
            var o3 := o2 + |BindingSegment(cmd)|;
            var o4 := o3 + |CogSegment(cmd)|;
            var o5 := o4 + |cmd.checks|;
            && |s| == o5 + |cmd.wrappedChecks|
            && s[0] == Scheduled(GlobalOnce, bot.globalOnce)
            && s[1] == Scheduled(Global, bot.global)
            && (ParentRuns(cmd) ==> s[2] == ParentSegment(cmd)[0])
            && (|BindingSegment(cmd)| == 1 ==> s[o2] == BindingSegment(cmd)[0])
            && (|CogSegment(cmd)| == 1 ==> s[o3] == CogSegment(cmd)[0])
  {
  }

  /** `seg` sits in `s` from position `k` on. */
  ghost predicate PlacedAt(s: seq<Scheduled>, k: nat, seg: seq<Scheduled>) {
    k + |seg| <= |s| && forall i :: 0 <= i < |seg| ==> s[k + i] == seg[i]
  }

  /** Where the two check lists sit in the schedule. */
  lemma ListsLayout(cmd: AppCommandView, bot: BotChecks)
    ensures var s := Schedule(cmd, bot);
            && |s| == ListsStart(cmd) + |cmd.checks| + |cmd.wrappedChecks|
            && PlacedAt(s, ListsStart(cmd), ListSegment(cmd.checks, true))
            && PlacedAt(s, ListsStart(cmd) + |cmd.checks|, ListSegment(cmd.wrappedChecks, false))
  {
    var a := Head(bot) + ParentSegment(cmd) + BindingSegment(cmd) + CogSegment(cmd);
    var l1, l2 := ListSegment(cmd.checks, true), ListSegment(cmd.wrappedChecks, false);
    assert Schedule(cmd, bot) == a + l1 + l2;
    assert |a| == ListsStart(cmd);
    forall i | 0 <= i < |l1| ensures (a + l1 + l2)[|a| + i] == l1[i] {
    }
    forall i | 0 <= i < |l2| ensures (a + l1 + l2)[|a| + |l1| + i] == l2[i] {
    }
  }

  lemma Advance(s: seq<Scheduled>, trace: seq<CheckPoint>)
    requires Progress(s, trace) && |trace| < |s| && s[|trace|].verdict == Pass
    ensures Progress(s, trace + [s[|trace|].point])
  {
  }

  lemma Stop(s: seq<Scheduled>, trace: seq<CheckPoint>)
    requires Progress(s, trace) && |trace| < |s| && s[|trace|].verdict != Pass
    ensures ShortCircuit(s, s[|trace|].verdict, |trace| + 1)
    ensures Ran(s, trace + [s[|trace|].point])
  {
  }

  /** A list of checks placed at `|trace|` in `s`, run by `RunAll` to give `r` and `t`. */
  ghost predicate ListRun(s: seq<Scheduled>, trace: seq<CheckPoint>, seg: seq<Scheduled>,
                          r: Verdict, t: seq<CheckPoint>) {
    && PlacedAt(s, |trace|, seg)
    && ShortCircuit(seg, r, |t|) && Ran(seg, t)
  }

  /** A list that stopped early stops the whole chain at the same check. */
  lemma StopInside(s: seq<Scheduled>, trace: seq<CheckPoint>, seg: seq<Scheduled>,
                   r: Verdict, t: seq<CheckPoint>)
    requires Progress(s, trace) && ListRun(s, trace, seg, r, t) && r != Pass
    ensures ShortCircuit(s, r, |trace| + |t|) && Ran(s, trace + t)
  {
    var k := |trace|;
    assert s[k + (|t| - 1)] == seg[|t| - 1];
    forall i | 0 <= i < k + |t| - 1 ensures s[i].verdict == Pass {
      if i >= k { assert s[k + (i - k)] == seg[i - k]; }
    }
    forall i | 0 <= i < |trace + t| ensures (trace + t)[i] == s[i].point {
      if i >= k { assert s[k + (i - k)] == seg[i - k]; }
    }
  }

  /** A list that ran to the end with every check passing extends the progress. */
  lemma PassInside(s: seq<Scheduled>, trace: seq<CheckPoint>, seg: seq<Scheduled>, t: seq<CheckPoint>)
    requires Progress(s, trace) && ListRun(s, trace, seg, Pass, t)
    ensures Progress(s, trace + t)
  {
    var k := |trace|;
    forall i | 0 <= i < k + |t| ensures s[i].verdict == Pass && (trace + t)[i] == s[i].point {
      if i >= k { assert s[k + (i - k)] == seg[i - k]; }
    }
  }

  /**
   * `async_all(f(...) for f in checks)`: the checks of one list, in list
   * order, stopping at the first that does not pass.
   */
  method RunAll(verdicts: seq<Verdict>, app: bool) returns (r: Verdict, trace: seq<CheckPoint>)
    ensures Ran(ListSegment(verdicts, app), trace)
    ensures ShortCircuit(ListSegment(verdicts, app), r, |trace|)
  {
    trace := [];
    var i := 0;
    while i < |verdicts|
      invariant 0 <= i <= |verdicts| && |trace| == i
      invariant forall j :: 0 <= j < i ==> trace[j] == ListPoint(j, app) && verdicts[j] == Pass
    {
      trace := trace + [ListPoint(i, app)];
      if verdicts[i] != Pass {
        return verdicts[i], trace;
      }
      i := i + 1;
    }
    return Pass, trace;
  }

  /** The offset in the schedule at which the two check lists begin. */
  function ListsStart(cmd: AppCommandView): nat {
    2 + |ParentSegment(cmd)| + |BindingSegment(cmd)| + |CogSegment(cmd)|
  }

  /**
   * One of the two check lists at the tail of `_check_can_run`, once every
   * check of `s` before it has run and passed: an empty list is skipped,
   * and otherwise its checks run in order up to the first that does not pass.
   */
  method RunList(ghost s: seq<Scheduled>, checks: seq<Verdict>, app: bool, trace0: seq<CheckPoint>)
    returns (r: Verdict, trace: seq<CheckPoint>)
    requires Progress(s, trace0) && PlacedAt(s, |trace0|, ListSegment(checks, app))
    ensures r != Pass ==> Ran(s, trace) && ShortCircuit(s, r, |trace|)
    ensures r == Pass ==> Progress(s, trace) && |trace| == |trace0| + |checks|
  {
    if |checks| == 0 {
      return Pass, trace0;
    }
    var v, t := RunAll(checks, app);
    if v != Pass {
      StopInside(s, trace0, ListSegment(checks, app), v, t);
    } else {
      PassInside(s, trace0, ListSegment(checks, app), t);
    }
    return v, trace0 + t;
  }

  /**
   * The tail of `_check_can_run`: the application command's checks, then the
   * wrapped command's checks, once every check of `s` before the two lists
   * has run and passed.
   */
  method RunCheckLists(ghost s: seq<Scheduled>, checks: seq<Verdict>, wrappedChecks: seq<Verdict>,
                       trace0: seq<CheckPoint>)
    returns (r: Verdict, trace: seq<CheckPoint>)
    requires Progress(s, trace0) && |s| == |trace0| + |checks| + |wrappedChecks|
    requires PlacedAt(s, |trace0|, ListSegment(checks, true))
    requires PlacedAt(s, |trace0| + |checks|, ListSegment(wrappedChecks, false))
    ensures Ran(s, trace)
    ensures ShortCircuit(s, r, |trace|)
  {
    // the application command's own checks
    r, trace := RunList(s, checks, true, trace0);
    if r != Pass {
      return;
    }
    // the wrapped text command's checks
    r, trace := RunList(s, wrappedChecks, false, trace);
  }

  /**
   * `_check_can_run`: the chain as the source writes it, one early return
   * per check, with `trace` recording each check as it is run. The result
   * and the trace are those of the schedule run up to its first check that
   * does not pass.
   */
  method CheckCanRun(cmd: AppCommandView, bot: BotChecks) returns (r: Verdict, trace: seq<CheckPoint>)
    ensures Ran(Schedule(cmd, bot), trace)
    ensures ShortCircuit(Schedule(cmd, bot), r, |trace|)
  {
    ghost var s := Schedule(cmd, bot);
    ScheduleLayout(cmd, bot);
    trace := [];

    // bot.can_run(ctx, call_once=True)
    if bot.globalOnce != Pass {
      Stop(s, trace);
      return bot.globalOnce, trace + [GlobalOnce];
    }
    Advance(s, trace);
    trace := trace + [GlobalOnce];

    // bot.can_run(ctx)
    if bot.global != Pass {
      Stop(s, trace);
      return bot.global, trace + [Global];
    }
    Advance(s, trace);
    trace := trace + [Global];

    // the parent's interaction check, when the parent is not the binding
    if cmd.parent.Some? && !(cmd.binding.Some? && cmd.binding.value.id == cmd.parent.value.id) {
      var v := AttributeOr(cmd.parent.value.interactionCheck, "interaction_check");
      if v != Pass {
        Stop(s, trace);
        return v, trace + [ParentInteraction];
      }
      Advance(s, trace);
      trace := trace + [ParentInteraction];
    }
    assert |trace| == 2 + |ParentSegment(cmd)|;

    if cmd.binding.Some? {
      var binding := cmd.binding.value;
      // the binding's interaction check, skipped when it has none
      if binding.interactionCheck.Some? {
        var v := binding.interactionCheck.value;
        if v != Pass {
          Stop(s, trace);
          return v, trace + [BindingInteraction];
        }
        Advance(s, trace);
        trace := trace + [BindingInteraction];
      }
      assert |trace| == 2 + |ParentSegment(cmd)| + |BindingSegment(cmd)|;
      // the cog check, only when overridden; looking up a missing one raises
      var overridden := match binding.cogCheck
        case NoCogCheck => Some(Error(AttributeError("cog_check")))
        case Inherited => None
        case Overridden(v) => Some(v);
      if overridden.Some? {
        var v := overridden.value;
        if v != Pass {
          Stop(s, trace);
          return v, trace + [CogCheckPoint];
        }
        Advance(s, trace);
        trace := trace + [CogCheckPoint];
      }
    }
    assert |trace| == ListsStart(cmd);

    ListsLayout(cmd, bot);
    r, trace := RunCheckLists(s, cmd.checks, cmd.wrappedChecks, trace);
  }

  /** One entry per conditional check that applies, and one per list entry. */
  lemma ScheduleLength(cmd: AppCommandView, bot: BotChecks)
    ensures |Schedule(cmd, bot)| == 2 + (if ParentRuns(cmd) then 1 else 0)
              + (if cmd.binding.Some? && cmd.binding.value.interactionCheck.Some? then 1 else 0)
              + (if cmd.binding.Some? && !cmd.binding.value.cogCheck.Inherited? then 1 else 0)
              + |cmd.checks| + |cmd.wrappedChecks|
  {
  }

  /** The position of each check point in the fixed order of the chain. */
  function Rank(cmd: AppCommandView, p: CheckPoint): nat {
    match p
    case GlobalOnce => 0
    case Global => 1
    case ParentInteraction => 2
    case BindingInteraction => 3
    case CogCheckPoint => 4
    case AppCheck(i) => 5 + i
    case CommandCheck(i) => 5 + |cmd.checks| + i
  }

  ghost predicate InOrder(cmd: AppCommandView, s: seq<Scheduled>) {
    forall i, j :: 0 <= i < j < |s| ==> Rank(cmd, s[i].point) < Rank(cmd, s[j].point)
  }

  ghost predicate RanksWithin(cmd: AppCommandView, s: seq<Scheduled>, lo: nat, hi: nat) {
    forall i :: 0 <= i < |s| ==> lo <= Rank(cmd, s[i].point) < hi
  }

  lemma InOrderConcat(cmd: AppCommandView, a: seq<Scheduled>, b: seq<Scheduled>, lo: nat, mid: nat, hi: nat)
    requires InOrder(cmd, a) && InOrder(cmd, b)
    requires lo <= mid <= hi && RanksWithin(cmd, a, lo, mid) && RanksWithin(cmd, b, mid, hi)
    ensures InOrder(cmd, a + b) && RanksWithin(cmd, a + b, lo, hi)
  {
    forall i | 0 <= i < |a + b| ensures lo <= Rank(cmd, (a + b)[i].point) < hi {
      if i >= |a| { assert (a + b)[i] == b[i - |a|]; } else { assert (a + b)[i] == a[i]; }
    }
    forall i, j | 0 <= i < j < |a + b| ensures Rank(cmd, (a + b)[i].point) < Rank(cmd, (a + b)[j].point) {
      if j < |a| {
      } else if i >= |a| {
        assert (a + b)[i] == b[i - |a|] && (a + b)[j] == b[j - |a|];
      } else {
        assert (a + b)[j] == b[j - |a|];
      }
    }
  }

  /** The checks before the two lists come in order, all ranked below the lists. */
  lemma PrefixInOrder(cmd: AppCommandView, bot: BotChecks)
    ensures var a := Head(bot) + ParentSegment(cmd) + BindingSegment(cmd) + CogSegment(cmd);
            InOrder(cmd, a) && RanksWithin(cmd, a, 0, 5)
  {
    var h, p, b, c := Head(bot), ParentSegment(cmd), BindingSegment(cmd), CogSegment(cmd);
    assert InOrder(cmd, h) && RanksWithin(cmd, h, 0, 2);
    assert RanksWithin(cmd, p, 2, 3) && RanksWithin(cmd, b, 3, 4) && RanksWithin(cmd, c, 4, 5);
    InOrderConcat(cmd, h, p, 0, 2, 3);
    InOrderConcat(cmd, h + p, b, 0, 3, 4);
    InOrderConcat(cmd, h + p + b, c, 0, 4, 5);
  }

  lemma ListInOrder(cmd: AppCommandView, verdicts: seq<Verdict>, app: bool, lo: nat)
    requires lo == if app then 5 else 5 + |cmd.checks|
    ensures InOrder(cmd, ListSegment(verdicts, app))
    ensures RanksWithin(cmd, ListSegment(verdicts, app), lo, lo + |verdicts|)
  {
  }

  /**
   * The schedule lists its checks in the fixed order: the global check
   * once, the global check, the parent's interaction check, the binding's
   * interaction check, the cog check, the application command's checks, the
   * wrapped command's checks.
   */
  lemma ScheduleInOrder(cmd: AppCommandView, bot: BotChecks)
    ensures InOrder(cmd, Schedule(cmd, bot))
  {
    var a := Head(bot) + ParentSegment(cmd) + BindingSegment(cmd) + CogSegment(cmd);
    var l1, l2 := ListSegment(cmd.checks, true), ListSegment(cmd.wrappedChecks, false);
    var m := 5 + |cmd.checks|;
    PrefixInOrder(cmd, bot);
    ListInOrder(cmd, cmd.checks, true, 5);
    ListInOrder(cmd, cmd.wrappedChecks, false, m);
    InOrderConcat(cmd, a, l1, 0, 5, m);
    InOrderConcat(cmd, a + l1, l2, 0, m, m + |cmd.wrappedChecks|);
  }

  /** The check points the schedule holds. */
  function Points(s: seq<Scheduled>): set<CheckPoint> {
    set i | 0 <= i < |s| :: s[i].point
  }

  /** Which checks are scheduled, and under which conditions. */
  lemma ScheduleMembers(cmd: AppCommandView, bot: BotChecks)
    ensures var ps := Points(Schedule(cmd, bot));
            && GlobalOnce in ps && Global in ps
            && (ParentInteraction in ps <==> ParentRuns(cmd))
            && (BindingInteraction in ps <==> cmd.binding.Some? && cmd.binding.value.interactionCheck.Some?)
            && (CogCheckPoint in ps <==> cmd.binding.Some? && !cmd.binding.value.cogCheck.Inherited?)
            && (forall i: nat :: AppCheck(i) in ps <==> i < |cmd.checks|)
            && (forall i: nat :: CommandCheck(i) in ps <==> i < |cmd.wrappedChecks|)
  {
    SchedulePoints(cmd, bot);
    SegmentPoints(cmd);
    ListPoints(cmd.checks, true);
    ListPoints(cmd.wrappedChecks, false);
  }

  /** The points of the schedule are those of its segments. */
  lemma SchedulePoints(cmd: AppCommandView, bot: BotChecks)
    ensures Points(Schedule(cmd, bot)) ==
              {GlobalOnce, Global} + Points(ParentSegment(cmd)) + Points(BindingSegment(cmd))
              + Points(CogSegment(cmd)) + Points(ListSegment(cmd.checks, true))
              + Points(ListSegment(cmd.wrappedChecks, false))
  {
    var h, p, b, c := Head(bot), ParentSegment(cmd), BindingSegment(cmd), CogSegment(cmd);
    var l1, l2 := ListSegment(cmd.checks, true), ListSegment(cmd.wrappedChecks, false);
    PointsConcat(h, p);
    PointsConcat(h + p, b);
    PointsConcat(h + p + b, c);
    PointsConcat(h + p + b + c, l1);
    PointsConcat(h + p + b + c + l1, l2);
    assert Points(h) == {GlobalOnce, Global} by {
      assert h[0].point == GlobalOnce && h[1].point == Global;
    }
  }

  /** The conditional segments hold their one point exactly when they apply. */
  lemma SegmentPoints(cmd: AppCommandView)
    ensures Points(ParentSegment(cmd)) == if ParentRuns(cmd) then {ParentInteraction} else {}
    ensures Points(BindingSegment(cmd)) ==
              if cmd.binding.Some? && cmd.binding.value.interactionCheck.Some? then {BindingInteraction} else {}
    ensures Points(CogSegment(cmd)) ==
              if cmd.binding.Some? && !cmd.binding.value.cogCheck.Inherited? then {CogCheckPoint} else {}
  {
    var p, b, c := ParentSegment(cmd), BindingSegment(cmd), CogSegment(cmd);
    if |p| == 1 { assert p[0].point == ParentInteraction; }
    if |b| == 1 { assert b[0].point == BindingInteraction; }
    if |c| == 1 { assert c[0].point == CogCheckPoint; }
  }

  /** A check list holds one point per check, all of the list's own kind. */
  lemma ListPoints(verdicts: seq<Verdict>, app: bool)
    ensures var ps := Points(ListSegment(verdicts, app));
            && (forall x :: x in ps ==> if app then x.AppCheck? else x.CommandCheck?)
            && (app ==> forall i: nat :: AppCheck(i) in ps <==> i < |verdicts|)
            && (!app ==> forall i: nat :: CommandCheck(i) in ps <==> i < |verdicts|)
  {
    var l := ListSegment(verdicts, app);
    if app {
      forall i: nat ensures AppCheck(i) in Points(l) <==> i < |verdicts| {
        if i < |verdicts| { assert l[i].point == AppCheck(i); }
      }
    } else {
      forall i: nat ensures CommandCheck(i) in Points(l) <==> i < |verdicts| {
        if i < |verdicts| { assert l[i].point == CommandCheck(i); }
      }
    }
  }

  lemma PointsConcat(a: seq<Scheduled>, b: seq<Scheduled>)
    ensures Points(a + b) == Points(a) + Points(b)
  {
    forall x | x in Points(a + b) ensures x in Points(a) + Points(b) {
      var i :| 0 <= i < |a + b| && (a + b)[i].point == x;
      if i >= |a| { assert b[i - |a|].point == x; }
    }
    forall x | x in Points(b) ensures x in Points(a + b) {
      var i :| 0 <= i < |b| && b[i].point == x;
      assert (a + b)[|a| + i].point == x;
    }
    forall x | x in Points(a) ensures x in Points(a + b) {
      var i :| 0 <= i < |a| && a[i].point == x;
      assert (a + b)[i].point == x;
    }
  }

  /**
   * The first check that does not pass decides: its verdict is the result,
   * and the chain has run exactly the checks up to and including it.
   */
  lemma FirstFailureDecides(s: seq<Scheduled>, k: nat, r: Verdict, n: nat)
    requires k < |s| && s[k].verdict != Pass && PassedBefore(s, k)
    ensures ShortCircuit(s, r, n) <==> r == s[k].verdict && n == k + 1
  {
  }

  /** When every scheduled check passes, so does the chain, having run them all. */
  lemma AllPassDecides(s: seq<Scheduled>, r: Verdict, n: nat)
    requires PassedBefore(s, |s|)
    ensures ShortCircuit(s, r, n) <==> r == Pass && n == |s|
  {
  }

  /**
   * One failure point worked through: when the bot's checks pass and the
   * parent's interaction check (which runs because the parent is not the
   * binding) fails, the chain returns false having run exactly those three
   * checks, so neither the binding's checks nor any later one runs.
   */
  lemma ParentRejectionStopsChain(cmd: AppCommandView, bot: BotChecks, r: Verdict, trace: seq<CheckPoint>)
    requires bot.globalOnce == Pass && bot.global == Pass
    requires ParentRuns(cmd) && cmd.parent.value.interactionCheck == Some(Fail)
    requires Ran(Schedule(cmd, bot), trace) && ShortCircuit(Schedule(cmd, bot), r, |trace|)
    ensures r == Fail && trace == [GlobalOnce, Global, ParentInteraction]
  {
    var s := Schedule(cmd, bot);
    ScheduleLayout(cmd, bot);
    FirstFailureDecides(s, 2, r, |trace|);
  }

  /** A failing call-once global check stops the chain before anything else runs. */
  lemma GlobalOnceRejectionStopsChain(cmd: AppCommandView, bot: BotChecks, r: Verdict, trace: seq<CheckPoint>)
    requires bot.globalOnce != Pass
    requires Ran(Schedule(cmd, bot), trace) && ShortCircuit(Schedule(cmd, bot), r, |trace|)
    ensures r == bot.globalOnce && trace == [GlobalOnce]
  {
    FirstFailureDecides(Schedule(cmd, bot), 0, r, |trace|);
  }

  /** A failing global check stops the chain right after the call-once check. */
  lemma GlobalRejectionStopsChain(cmd: AppCommandView, bot: BotChecks, r: Verdict, trace: seq<CheckPoint>)
    requires bot.globalOnce == Pass && bot.global != Pass
    requires Ran(Schedule(cmd, bot), trace) && ShortCircuit(Schedule(cmd, bot), r, |trace|)
    ensures r == bot.global && trace == [GlobalOnce, Global]
  {
    FirstFailureDecides(Schedule(cmd, bot), 1, r, |trace|);
  }

  /** The checks before the binding's: the bot's two and, when it runs, the parent's. */
  function BeforeBinding(cmd: AppCommandView): seq<CheckPoint> {
    [GlobalOnce, Global] + (if ParentRuns(cmd) then [ParentInteraction] else [])
  }

  /**
   * A failing interaction check of the binding stops the chain once the bot
   * checks and any parent check have passed: neither the cog check nor any
   * list check runs.
   */
  lemma BindingRejectionStopsChain(cmd: AppCommandView, bot: BotChecks, r: Verdict, trace: seq<CheckPoint>)
    requires bot.globalOnce == Pass && bot.global == Pass
    requires ParentRuns(cmd) ==> cmd.parent.value.interactionCheck == Some(Pass)
    requires cmd.binding.Some? && cmd.binding.value.interactionCheck.Some?
    requires cmd.binding.value.interactionCheck.value != Pass
    requires Ran(Schedule(cmd, bot), trace) && ShortCircuit(Schedule(cmd, bot), r, |trace|)
    ensures r == cmd.binding.value.interactionCheck.value
    ensures trace == BeforeBinding(cmd) + [BindingInteraction]
  {
    var s := Schedule(cmd, bot);
    ScheduleLayout(cmd, bot);
    var k := |BeforeBinding(cmd)|;
    FirstFailureDecides(s, k, r, |trace|);
  }

  /**
   * An overridden cog check that fails, or a binding without any
   * `cog_check`, stops the chain once every earlier check has passed: no
   * list check runs.
   */
  lemma CogRejectionStopsChain(cmd: AppCommandView, bot: BotChecks, r: Verdict, trace: seq<CheckPoint>)
    requires bot.globalOnce == Pass && bot.global == Pass
    requires ParentRuns(cmd) ==> cmd.parent.value.interactionCheck == Some(Pass)
    requires cmd.binding.Some? && cmd.binding.value.interactionCheck in {None, Some(Pass)}
    requires cmd.binding.value.cogCheck.NoCogCheck? ||
             (cmd.binding.value.cogCheck.Overridden? && cmd.binding.value.cogCheck.verdict != Pass)
    requires Ran(Schedule(cmd, bot), trace) && ShortCircuit(Schedule(cmd, bot), r, |trace|)
    ensures cmd.binding.value.cogCheck.NoCogCheck? ==> r == Error(AttributeError("cog_check"))
    ensures cmd.binding.value.cogCheck.Overridden? ==> r == cmd.binding.value.cogCheck.verdict
    ensures trace == BeforeBinding(cmd)
                     + (if cmd.binding.value.interactionCheck.Some? then [BindingInteraction] else [])
                     + [CogCheckPoint]
  {
    var s := Schedule(cmd, bot);
    ScheduleLayout(cmd, bot);
    var k := |BeforeBinding(cmd)| + |BindingSegment(cmd)|;
    FirstFailureDecides(s, k, r, |trace|);
  }

  /** The checks of a segment placed at `base` pass up to `i`, after all checks before `base` did. */
  lemma SegmentPassed(s: seq<Scheduled>, base: nat, seg: seq<Scheduled>, i: nat)
    requires PlacedAt(s, base, seg) && PassedBefore(s, base) && i <= |seg|
    requires forall j :: 0 <= j < i ==> seg[j].verdict == Pass
    ensures PassedBefore(s, base + i)
  {
    forall j | base <= j < base + i
      ensures s[j].verdict == Pass
    {
      assert s[base + (j - base)] == seg[j - base];
    }
  }

  /** The first failing check of a segment placed after checks that all passed decides the chain. */
  lemma SegmentFailureDecides(s: seq<Scheduled>, base: nat, seg: seq<Scheduled>, i: nat,
                              r: Verdict, trace: seq<CheckPoint>)
    requires PlacedAt(s, base, seg) && PassedBefore(s, base)
    requires i < |seg| && seg[i].verdict != Pass && forall j :: 0 <= j < i ==> seg[j].verdict == Pass
    requires Ran(s, trace) && ShortCircuit(s, r, |trace|)
    ensures r == seg[i].verdict && |trace| == base + i + 1 && trace[|trace| - 1] == seg[i].point
  {
    SegmentPassed(s, base, seg, i);
    assert s[base + i] == seg[i];
    FirstFailureDecides(s, base + i, r, |trace|);
  }

  /**
   * Once every check before the lists has passed, the first of the
   * application command's checks that does not pass decides the result, and
   * no later check runs.
   */
  lemma AppCheckRejectionStopsChain(cmd: AppCommandView, bot: BotChecks, i: nat, r: Verdict, trace: seq<CheckPoint>)
    requires PassedBefore(Schedule(cmd, bot), ListsStart(cmd))
    requires i < |cmd.checks| && cmd.checks[i] != Pass
    requires forall j :: 0 <= j < i ==> cmd.checks[j] == Pass
    requires Ran(Schedule(cmd, bot), trace) && ShortCircuit(Schedule(cmd, bot), r, |trace|)
    ensures r == cmd.checks[i]
    ensures |trace| == ListsStart(cmd) + i + 1 && trace[|trace| - 1] == AppCheck(i)
  {
    ListsLayout(cmd, bot);
    SegmentFailureDecides(Schedule(cmd, bot), ListsStart(cmd), ListSegment(cmd.checks, true), i, r, trace);
  }

  /**
   * Once every check before the wrapped command's list has passed, the
   * first of the wrapped command's checks that does not pass decides the
   * result, and no later check runs.
   */
  lemma CommandCheckRejectionStopsChain(cmd: AppCommandView, bot: BotChecks, i: nat, r: Verdict, trace: seq<CheckPoint>)
    requires PassedBefore(Schedule(cmd, bot), ListsStart(cmd))
    requires forall j :: 0 <= j < |cmd.checks| ==> cmd.checks[j] == Pass
    requires i < |cmd.wrappedChecks| && cmd.wrappedChecks[i] != Pass
    requires forall j :: 0 <= j < i ==> cmd.wrappedChecks[j] == Pass
    requires Ran(Schedule(cmd, bot), trace) && ShortCircuit(Schedule(cmd, bot), r, |trace|)
    ensures r == cmd.wrappedChecks[i]
    ensures |trace| == ListsStart(cmd) + |cmd.checks| + i + 1 && trace[|trace| - 1] == CommandCheck(i)
  {
    ListsLayout(cmd, bot);
    SecondListFailure(Schedule(cmd, bot), ListsStart(cmd), cmd.checks, cmd.wrappedChecks, i, r, trace);
  }

  /** The wrapped command's list, run after the application command's list passed. */
  lemma SecondListFailure(s: seq<Scheduled>, start: nat, checks: seq<Verdict>, wrapped: seq<Verdict>, i: nat,
                          r: Verdict, trace: seq<CheckPoint>)
    requires PassedBefore(s, start)
    requires PlacedAt(s, start, ListSegment(checks, true))
    requires PlacedAt(s, start + |checks|, ListSegment(wrapped, false))
    requires forall j :: 0 <= j < |checks| ==> checks[j] == Pass
    requires i < |wrapped| && wrapped[i] != Pass
    requires forall j :: 0 <= j < i ==> wrapped[j] == Pass
    requires Ran(s, trace) && ShortCircuit(s, r, |trace|)
    ensures r == wrapped[i]
    ensures |trace| == start + |checks| + i + 1 && trace[|trace| - 1] == CommandCheck(i)
  {
    SegmentPassed(s, start, ListSegment(checks, true), |checks|);
    SegmentFailureDecides(s, start + |checks|, ListSegment(wrapped, false), i, r, trace);
  }
}
