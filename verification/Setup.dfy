/**
 * The setup wizard (cmd/relume-tv/setup.go setupStatus).
 *
 * Pairings are only ever added, and may be while recompute is between two turns of its
 * loop; reports and descriptor fetches wait for the lock it holds.
 */
module Setup {
  const PAIR_PRO := 1
  const PRO_POWER_OFF := 2
  const REBOOT_TV := 3
  const TV_SCAN := 4
  const PRO_POWER_ON := 5
  const ASSIGN_BULBS := 6
  const DONE := 7

  /** What recompute reads: the pairings, and whether the TV drives the lights. */
  datatype Signals = Signals(pro: bool, tv: bool, active: bool)

  datatype Wizard = Wizard(
    step: nat,
    proReachable: bool,
    everReachable: bool,
    descriptorSeen: bool,
    powerCycleSkipped: bool,
    committed: bool,
    commits: nat)           // times the commit action ran
  {
    predicate Valid() { PAIR_PRO <= step <= DONE }

    /** The step's own signal, which alone lets it be left. */
    predicate Passes(sig: Signals) {
      if step == PAIR_PRO then sig.pro
      else if step == PRO_POWER_OFF then sig.tv || (everReachable && !proReachable)
      else if step == REBOOT_TV then sig.tv || descriptorSeen
      else if step == TV_SCAN then sig.tv
      else if step == PRO_POWER_ON then proReachable
      else step == ASSIGN_BULBS && sig.active
    }

    /** One turn of recompute's loop. */
    function Turn(sig: Signals): Wizard {
      if !Passes(sig) then this
      else
        var next := this.(step := step + 1, powerCycleSkipped := powerCycleSkipped || (step == PRO_POWER_OFF && sig.tv));
        if step == ASSIGN_BULBS then next.Commit() else next
    }

    /** doCommit. */
    function Commit(): Wizard {
      if committed then this else this.(committed := true, commits := commits + 1)
    }

    function Reported(up: bool): Wizard {
      this.(proReachable := up, everReachable := everReachable || up)
    }
  }

  const FRESH := Wizard(PAIR_PRO, false, false, false, false, false, 0)
  const FINISHED := Wizard(DONE, false, false, false, false, true, 0)

  /** recompute while the signals stand still. */
  function Settled(w: Wizard, sig: Signals): Wizard
    requires w.Valid()
    decreases DONE - w.step
  {
    if w.Passes(sig) then Settled(w.Turn(sig), sig) else w
  }

  class SetupStatus {
    var step: nat
    var proReachable: bool
    var everReachable: bool
    var tvDescriptorSeen: bool
    var powerCycleSkipped: bool
    var committed: bool
    ghost var commits: nat

    ghost function View(): Wizard
      reads this
    {
      Wizard(step, proReachable, everReachable, tvDescriptorSeen, powerCycleSkipped, committed, commits)
    }

    constructor (alreadyCommitted: bool)
      ensures View() == if alreadyCommitted then FINISHED else FRESH
    {
      step, committed := if alreadyCommitted then DONE else PAIR_PRO, alreadyCommitted;
      proReachable, everReachable, tvDescriptorSeen, powerCycleSkipped := false, false, false, false;
      commits := 0;
    }

    method DoCommit()
      modifies this`committed, this`commits
      ensures View() == old(View()).Commit()
    {
      if committed {
        return;
      }
      committed := true;
      commits := commits + 1;
    }

    /** recompute: on as far as the signals allow, and no further. */
    method Recompute(sig: Signals)
      requires View().Valid()
      modifies this
      ensures View() == Settled(old(View()), sig)
    {
      while step < DONE
        invariant View().Valid()
        invariant Settled(View(), sig) == Settled(old(View()), sig)
        decreases DONE - step
      {
        var next := step;
        if step == PAIR_PRO {
          if sig.pro {
            next := PRO_POWER_OFF;
          }
        } else if step == PRO_POWER_OFF {
          if sig.tv {
            powerCycleSkipped := true;
            next := REBOOT_TV;
          } else if everReachable && !proReachable {
            next := REBOOT_TV;
          }
        } else if step == REBOOT_TV {
          if sig.tv || tvDescriptorSeen {
            next := TV_SCAN;
          }
        } else if step == TV_SCAN {
          if sig.tv {
            next := PRO_POWER_ON;
          }
        } else if step == PRO_POWER_ON {
          if proReachable {
            next := ASSIGN_BULBS;
          }
        } else if step == ASSIGN_BULBS {
          if sig.active {
            next := DONE;
          }
        }
        if next == step {
          return;
        }
        step := next;
        if next == DONE {
          DoCommit();
          return;
        }
      }
    }

    method SetReachable(up: bool, sig: Signals)
      requires View().Valid()
      modifies this
      ensures View() == Settled(old(View()).Reported(up), sig)
    {
      if up {
        everReachable := true;
      }
      proReachable := up;
      Recompute(sig);
    }

    /** markTVDescriptorSeen: counts only while the TV is to be rebooted. */
    method MarkTVDescriptorSeen(sig: Signals)
      requires View().Valid()
      modifies this
      ensures View() == if old(step) == REBOOT_TV then Settled(old(View()).(descriptorSeen := true), sig) else old(View())
    {
      if step == REBOOT_TV {
        tvDescriptorSeen := true;
        Recompute(sig);
      }
    }
  }

  /** recompute stops at a step whose signal is missing, having passed every one before it in turn. */
  lemma {:induction false} SettledIsFixpoint(w: Wizard, sig: Signals)
    requires w.Valid()
    ensures var s := Settled(w, sig); s.Valid() && w.step <= s.step && !s.Passes(sig)
    ensures Settled(Settled(w, sig), sig) == Settled(w, sig)
    decreases DONE - w.step
  {
    if w.Passes(sig) {
      SettledIsFixpoint(w.Turn(sig), sig);
    }
  }

  /** No step is left without its own signal: the pairing, the Pro's fall, the descriptor or the TV, the Pro's return, the TV's traffic. */
  lemma {:induction false} NoStepWithoutSignal(w: Wizard, sig: Signals)
    requires w.Valid()
    ensures w.step <= 1 && !sig.pro ==> Settled(w, sig).step == 1
    ensures w.step <= 2 && !sig.tv && !(w.everReachable && !w.proReachable) ==> Settled(w, sig).step <= 2
    ensures w.step <= 3 && !sig.tv && !w.descriptorSeen ==> Settled(w, sig).step <= 3
    ensures w.step <= 4 && !sig.tv ==> Settled(w, sig).step <= 4
    ensures w.step <= 5 && !w.proReachable ==> Settled(w, sig).step <= 5
    ensures w.step <= 6 && !sig.active ==> Settled(w, sig).step <= 6
    decreases DONE - w.step
  {
    if w.Passes(sig) {
      NoStepWithoutSignal(w.Turn(sig), sig);
    }
  }

  /** And with its signal each is left: recompute does not wait for anything else. */
  lemma {:induction false} SignalLeavesStep(w: Wizard, sig: Signals)
    requires w.Valid()
    ensures sig.pro ==> Settled(w, sig).step > 1
    ensures w.step >= 2 && (sig.tv || (w.everReachable && !w.proReachable)) ==> Settled(w, sig).step > 2
    ensures w.step >= 3 && (sig.tv || w.descriptorSeen) ==> Settled(w, sig).step > 3
    ensures w.step >= 4 && sig.tv ==> Settled(w, sig).step > 4
    ensures w.step >= 5 && w.proReachable ==> Settled(w, sig).step > 5
    ensures w.step >= 6 && sig.active ==> Settled(w, sig).step == 7
  {
    SettledIsFixpoint(w, sig);
    if w.Passes(sig) {
      SettledIsFixpoint(w.Turn(sig), sig);
    }
  }

  /** The power cycle counts as skipped exactly if step 2 was left with a TV paired. */
  lemma {:induction false} SkippedIffPaired(w: Wizard, sig: Signals)
    requires w.Valid()
    ensures Settled(w, sig).powerCycleSkipped <==>
            w.powerCycleSkipped || (sig.tv && w.step <= 2 && Settled(w, sig).step > 2)
    decreases DONE - w.step
  {
    if w.Passes(sig) {
      SkippedIffPaired(w.Turn(sig), sig);
      SettledIsFixpoint(w.Turn(sig), sig);
    }
  }

  // ------------------------------------------------------------------- runs

  /** The reachability reports so far. */
  datatype Reports = NoReport | Report(before: Reports, up: bool)

  predicate Up(r: Reports) {
    r.Report? && (r.up || Up(r.before))
  }

  /** An up report and a later down report. */
  predicate UpDown(r: Reports) {
    r.Report? && (UpDown(r.before) || (!r.up && Up(r.before)))
  }

  /** An up report, a later down report and a later up report. */
  predicate UpDownUp(r: Reports) {
    r.Report? && (UpDownUp(r.before) || (r.up && UpDown(r.before)))
  }

  /** `busy` while recompute is in its loop, which turns once at a time. */
  datatype State = State(w: Wizard, sig: Signals, busy: bool, reports: Reports)

  datatype Action =
    | PairPro
    | PairTV
    | Drive(on: bool)
    | Reach(up: bool)
    | FetchDescriptor
    | Recompute
    | Loop

  function Init(alreadyCommitted: bool, pro: bool, tv: bool): State {
    State(if alreadyCommitted then FINISHED else FRESH, Signals(pro, tv, false), false, NoReport)
  }

  predicate Enabled(s: State, a: Action) {
    match a
    case Reach(_) => !s.busy
    case FetchDescriptor => !s.busy
    case Recompute => !s.busy
    case Loop => s.busy
    case _ => true
  }

  function Apply(s: State, a: Action): State
    requires Enabled(s, a)
  {
    match a
    case PairPro => s.(sig := s.sig.(pro := true))
    case PairTV => s.(sig := s.sig.(tv := true))
    case Drive(on) => s.(sig := s.sig.(active := on))
    case Reach(up) => s.(w := s.w.Reported(up), busy := true, reports := Report(s.reports, up))
    case FetchDescriptor => if s.w.step == REBOOT_TV then s.(w := s.w.(descriptorSeen := true), busy := true) else s
    case Recompute => s.(busy := true)
    case Loop => s.(w := s.w.Turn(s.sig), busy := s.w.Passes(s.sig) && s.w.step < ASSIGN_BULBS)
  }

  datatype Trace = Start(alreadyCommitted: bool, pro: bool, tv: bool) | Then(before: Trace, a: Action)

  predicate Legal(t: Trace)
    decreases t, 0
  {
    t.Then? ==> Legal(t.before) && Enabled(End(t.before), t.a)
  }

  function End(t: Trace): State
    requires Legal(t)
    decreases t, 1
  {
    if t.Start? then Init(t.alreadyCommitted, t.pro, t.tv) else Apply(End(t.before), t.a)
  }

  predicate FromScratch(t: Trace) {
    if t.Start? then !t.alreadyCommitted else FromScratch(t.before)
  }

  /** The step happened, or, for the pairings, they were there from the start. */
  predicate Paired(t: Trace, a: Action) {
    if t.Start? then (a == PairPro && t.pro) || (a == PairTV && t.tv) else t.a == a || Paired(t.before, a)
  }

  /** What the TV last did with the lights. */
  predicate LastDrove(t: Trace) {
    t.Then? && (if t.a.Drive? then t.a.on else LastDrove(t.before))
  }

  /** The TV fetched the descriptor while the wizard waited for its reboot. */
  predicate Fetched(t: Trace)
    requires Legal(t)
  {
    t.Then? && (Fetched(t.before) || (t.a.FetchDescriptor? && End(t.before).w.step == 3))
  }

  lemma HeardStep(s: State, a: Action)
    requires Enabled(s, a)
    ensures Apply(s, a).sig == Signals(s.sig.pro || a == PairPro, s.sig.tv || a == PairTV, if a.Drive? then a.on else s.sig.active)
    ensures Apply(s, a).w.descriptorSeen <==> s.w.descriptorSeen || (a.FetchDescriptor? && s.w.step == 3)
  {
  }

  /** The signals are what was last heard: pairings stay, and a descriptor fetch counts only at the reboot. */
  lemma {:induction false} SignalsAreHeard(t: Trace)
    requires Legal(t)
    ensures End(t).sig.pro <==> Paired(t, PairPro)
    ensures End(t).sig.tv <==> Paired(t, PairTV)
    ensures End(t).sig.active <==> LastDrove(t)
    ensures End(t).w.descriptorSeen <==> Fetched(t)
  {
    if t.Then? {
      SignalsAreHeard(t.before);
      HeardStep(End(t.before), t.a);
    }
  }

  /** What a step behind the wizard has left. */
  predicate Earned(w: Wizard, sig: Signals, reports: Reports) {
    && (w.everReachable <==> Up(reports))
    && (w.proReachable <==> reports.Report? && reports.up)
    && (w.step > PAIR_PRO ==> sig.pro)
    && (w.powerCycleSkipped ==> sig.tv)
    && (w.step > PRO_POWER_OFF && !w.powerCycleSkipped ==> UpDown(reports))
    && (w.step > REBOOT_TV ==> sig.tv || w.descriptorSeen)
    && (w.descriptorSeen ==> w.step >= REBOOT_TV)
    && (w.step > TV_SCAN ==> sig.tv)
    && (w.step > PRO_POWER_ON ==> Up(reports) && (!w.powerCycleSkipped ==> UpDownUp(reports)))
  }

  predicate Inv(s: State) {
    && s.w.Valid()
    && s.w.commits == (if s.w.step == DONE then 1 else 0)
    && (s.w.committed <==> s.w.step == DONE)
    && Earned(s.w, s.sig, s.reports)
  }

  lemma InvKept(s: State, a: Action)
    requires Enabled(s, a) && Inv(s)
    ensures Inv(Apply(s, a))
  {
  }

  lemma {:induction false} AlwaysInv(t: Trace)
    requires Legal(t) && FromScratch(t)
    ensures Inv(End(t))
  {
    if t.Then? {
      AlwaysInv(t.before);
      InvKept(End(t.before), t.a);
    }
  }

  /** The commit action runs exactly once, on reaching the end, in every run of a new setup. */
  lemma {:induction false} CommitOnceIffDone(t: Trace)
    requires Legal(t) && FromScratch(t)
    ensures End(t).w.commits == if End(t).w.step == DONE then 1 else 0
  {
    AlwaysInv(t);
  }

  /** Whoever is done has paired both the Pro and a TV, and the Pro was reported up. */
  lemma DoneMeansPaired(t: Trace)
    requires Legal(t) && FromScratch(t) && End(t).w.step == DONE
    ensures End(t).sig.pro && End(t).sig.tv && Up(End(t).reports)
  {
    AlwaysInv(t);
  }

  /** At some point the TV drove the lights. */
  predicate Driven(t: Trace) {
    t.Then? && (t.a == Drive(true) || Driven(t.before))
  }

  /** Done implies that the TV has driven the lights, and nothing is committed before. */
  lemma {:induction false} DoneMeansDrivenToo(t: Trace)
    requires Legal(t) && FromScratch(t)
    ensures End(t).sig.active ==> Driven(t)
    ensures End(t).w.step == DONE || End(t).w.commits > 0 ==> Driven(t)
  {
    if t.Then? {
      DoneMeansDrivenToo(t.before);
      AlwaysInv(t.before);
      InvKept(End(t.before), t.a);
    }
  }

  /** Leaving the power-off step unskipped took an up report and a later down report; leaving the power-on step, one more up. */
  lemma PowerCycleObserved(t: Trace)
    requires Legal(t) && FromScratch(t) && !End(t).w.powerCycleSkipped
    ensures End(t).w.step > PRO_POWER_OFF ==> UpDown(End(t).reports)
    ensures End(t).w.step > PRO_POWER_ON ==> UpDownUp(End(t).reports)
  {
    AlwaysInv(t);
  }

  predicate Prefix(u: Trace, t: Trace) {
    u == t || (t.Then? && Prefix(u, t.before))
  }

  lemma NoStepBack(s: State, a: Action)
    requires Enabled(s, a)
    ensures s.w.step <= Apply(s, a).w.step
  {
  }

  /** The step never decreases. */
  lemma {:induction false} StepsAscend(u: Trace, t: Trace)
    requires Legal(t) && Prefix(u, t)
    ensures Legal(u) && End(u).w.step <= End(t).w.step
  {
    if u != t {
      StepsAscend(u, t.before);
      NoStepBack(End(t.before), t.a);
    }
  }

  /** A setup that was committed before stays done and is never committed again. */
  lemma {:induction false} FinishedStays(t: Trace)
    requires Legal(t) && !FromScratch(t)
    ensures End(t).w.step == DONE && End(t).w.commits == 0 && End(t).w.committed
  {
    if t.Then? {
      FinishedStays(t.before);
    }
  }

  /** The loop turned without interruption is recompute. */
  function Loops(t: Trace, n: nat): Trace {
    if n == 0 then t else Then(Loops(t, n - 1), Loop)
  }

  lemma {:induction false} LoopsOn(t: Trace, n: nat)
    ensures Loops(Then(t, Loop), n) == Then(Loops(t, n), Loop)
  {
    if n > 0 {
      LoopsOn(t, n - 1);
    }
  }

  /** A turn either goes one step on, or leaves the wizard where recompute does. */
  lemma TurnSettles(w: Wizard, sig: Signals)
    requires w.Valid()
    ensures w.Passes(sig) && w.step < ASSIGN_BULBS ==>
              w.Turn(sig).Valid() && w.Turn(sig).step == w.step + 1 && Settled(w.Turn(sig), sig) == Settled(w, sig)
    ensures !(w.Passes(sig) && w.step < ASSIGN_BULBS) ==> w.Turn(sig) == Settled(w, sig)
  {
  }

  /** Started with the signals standing still, the loop ends after finitely many turns where recompute does. */
  lemma {:induction false} LoopsAreRecompute(t: Trace) returns (n: nat)
    requires Legal(t) && End(t).busy && End(t).w.Valid() && End(t).w.step < DONE
    ensures n <= DONE - End(t).w.step && Legal(Loops(t, n)) && !End(Loops(t, n)).busy
    ensures End(Loops(t, n)).w == Settled(End(t).w, End(t).sig)
    decreases DONE - End(t).w.step
  {
    var u := Then(t, Loop);
    TurnSettles(End(t).w, End(t).sig);
    if End(u).busy {
      n := LoopsAreRecompute(u);
      LoopsOn(t, n);
      n := n + 1;
    } else {
      n := 1;
      assert Loops(t, 0) == t;
    }
  }

  /**
   * Every report, every descriptor fetch the wizard waits for and every recompute is
   * evaluated: left alone, the wizard comes to where the signals allow.
   */
  lemma ReportsAreEvaluated(t: Trace, a: Action) returns (n: nat)
    requires Legal(t) && Enabled(End(t), a) && End(t).w.Valid() && End(t).w.step < DONE
    requires a.Reach? || a.Recompute? || (a.FetchDescriptor? && End(t).w.step == 3)
    ensures Legal(Loops(Then(t, a), n)) && !End(Loops(Then(t, a), n)).busy
    ensures var w, sig := End(t).w, End(t).sig;
            End(Loops(Then(t, a), n)).w ==
            Settled(if a.Reach? then w.Reported(a.up) else if a.FetchDescriptor? then w.(descriptorSeen := true) else w, sig)
  {
    n := LoopsAreRecompute(Then(t, a));
  }
}
