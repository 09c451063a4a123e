/** journal_linux.go: the controller object. Its methods update the record in
    place, statement by statement as the source does, and are proved to do what
    the functions of module Journal say; the guarantees proved about those
    functions are therefore guarantees of the methods. */
module Controller {
  import opened Text
  import opened Plan
  import opened Observation
  import opened Resources
  import opened Scoped
  import opened KernelState
  import J = Journal

  class DurableIsolated {
    const site: Site
    const tape: J.Tape
    var w: J.Earth
    var r: J.Record
    var closed: bool

    ghost function Now(): J.State
      reads this
    {
      J.State(w, r)
    }

    /** `openDurableIsolated`, once the directory lock is held: the caller has
        decoded the journal, if there is one. */
    constructor (site: Site, tape: J.Tape, w: J.Earth, record: J.Record)
      requires J.Open(site, w.disk) == Some(record)
      ensures this.site == site && this.tape == tape && this.w == w && r == record && !closed
    {
      this.site, this.tape, this.w, this.r, this.closed := site, tape, w, record, false;
    }

    method Close()
      modifies this`closed
      ensures closed
    {
      closed := true;
    }

    // ---- primitives ----

    method Save() returns (exit: J.Exit)
      modifies this`w
      ensures (w, exit) == J.Save(site, tape, old(w), r)
    {
      var verdict := tape(w.clock).verdict;
      w := J.Tick(site, tape, w);
      if verdict.Succeed? || verdict.effect {
        w := w.(disk := Some(r));
      }
      exit := match verdict case Succeed => J.Done case Fail(_) => J.Failed case Crash(_) => J.Crashed;
    }

    method Run(intent: string, index: int) returns (exit: J.Exit)
      modifies this`w
      ensures (w, exit) == J.Run(site, tape, old(w), intent, index)
    {
      var result := J.Run(site, tape, w, intent, index);
      w, exit := result.0, result.1;
    }

    method Capture() returns (seen: J.Try<seq<string>>)
      modifies this`w
      ensures (w, seen) == J.Capture(site, tape, old(w))
    {
      var result := J.Capture(site, tape, w);
      w, seen := result.0, result.1;
    }

    // ---- observations ----

    /** `observeScopedWith` */
    method ObserveScoped() returns (seen: J.Try<ScopedWitness>)
      modifies this`w
      ensures (w, seen) == J.ObserveScoped(site, tape, old(w))
    {
      hide J.Capture, ClassifyScoped;
      var previous: Option<ScopedWitness> := None;
      var pass := 0;
      while pass < 2
        invariant 0 <= pass <= 2
        invariant pass == 0 ==> w == old(w)
        invariant pass == 1 ==>
          var (w1, first) := J.Capture(site, tape, old(w));
          && w == w1 && first.Got? && previous.Some?
          && ClassifyScoped(site.plan, ContextOf(site, w1.kernel), first.value) == Ok(previous.value)
        invariant pass == 2 ==> previous.Some? && (w, J.Got(previous.value)) == J.ObserveScoped(site, tape, old(w))
      {
        var outputs := Capture();
        if outputs.Bad? { return J.Bad; }
        if outputs.Dead? { return J.Dead; }
        var current := ClassifyScopedByLine(site.plan, ContextOf(site, w.kernel), outputs.value);
        if current.Err? { return J.Bad; }
        if pass == 1 && previous.value.digest != current.value.digest { return J.Bad; }
        previous := Some(current.value);
        pass := pass + 1;
      }
      seen := J.Got(previous.value);
    }

    /** `observeResources` */
    method ObserveResources() returns (seen: J.Try<ResourceWitness>)
      modifies this`w
      ensures (w, seen) == J.ObserveResources(site, tape, old(w))
    {
      hide J.Capture, ClassifyResources;
      var outputs := Capture();
      if outputs.Bad? { return J.Bad; }
      if outputs.Dead? { return J.Dead; }
      var found := ClassifyResourcesByLine(site.plan, ContextOf(site, w.kernel), outputs.value);
      if found.Err? { return J.Bad; }
      var after := Capture();
      if after.Bad? { return J.Bad; }
      if after.Dead? { return J.Dead; }
      if Texts(after.value) != found.value.whole { return J.Bad; }
      seen := J.Got(found.value);
    }

    method Snapshot() returns (seen: J.Try<Digest>)
      modifies this`w
      ensures (w, seen) == J.Snapshot(site, tape, old(w), r.owned)
    {
      hide J.Capture, J.ObserveScoped;
      if !site.scoped {
        var outputs := Capture();
        return match outputs case Got(o) => J.Got(Texts(o)) case Bad => J.Bad case Dead => J.Dead;
      }
      var scoped := ObserveScoped();
      if scoped.Bad? { return J.Bad; }
      if scoped.Dead? { return J.Dead; }
      if !CountsMatch(scoped.value.counts, r.owned) { return J.Bad; }
      seen := J.Got(scoped.value.digest);
    }

    method Witness(index: int) returns (seen: J.Try<ResourceWitness>)
      modifies this`w
      ensures (w, seen) == J.Witness(site, tape, old(w), index)
    {
      hide J.ObserveResources, J.ObserveScoped;
      if !site.scoped {
        seen := ObserveResources();
        return;
      }
      var scoped := ObserveScoped();
      if scoped.Bad? { return J.Bad; }
      if scoped.Dead? { return J.Dead; }
      seen := J.Got(ResourceWitness(scoped.value.counts, scoped.value.digest, Excluding(scoped.value.resources, index)));
    }

    method Check() returns (exit: J.Exit)
      modifies this`w
      ensures if closed then exit == J.Failed && w == old(w) else (w, exit) == J.Check(site, tape, old(Now()))
    {
      hide J.Snapshot;
      if closed { return J.Failed; }
      if r.pending != "" { return J.Failed; }
      var s := Snapshot();
      if !s.Got? { return s.Leave(); }
      if r.snapshot != J.Empty && J.Sha(s.value) != r.snapshot { return J.Failed; }
      exit := J.Done;
    }

    // ---- operations ----

    /** `change` */
    method Change(intent: string) returns (exit: J.Exit)
      requires !closed
      modifies this`w, this`r
      ensures (Now(), exit) == J.Change(site, tape, old(Now()), intent)
    {
      hide J.Check, J.Witness, J.Save, J.Run, J.Snapshot;
      exit := Check();
      if !exit.Done? { return; }
      var index := r.owned;
      if intent == "remove" { index := index - 1; }
      var seen := Witness(index);
      if !seen.Got? { return seen.Leave(); }
      if J.Sha(seen.value.whole) != r.snapshot || !CountsMatch(seen.value.counts, r.owned) { return J.Failed; }
      var before := r;
      r := r.(version := 2);
      if site.scoped { r := r.(version := 3); }
      r := r.(pending := intent);
      r := r.(proof := J.Sha(seen.value.residual));
      exit := Save();
      if !exit.Done? { return; }
      exit := Run(intent, index);
      if !exit.Done? { return; }
      if intent == "remove" { r := r.(owned := r.owned - 1); } else { r := r.(owned := r.owned + 1); }
      var s := Snapshot();
      if !s.Got? {
        r := r.(owned := before.owned);
        return s.Leave();
      }
      r := r.(snapshot := J.Sha(s.value));
      r := r.(pending := "");
      r := r.(proof := J.Empty);
      exit := Save();
      if !exit.Done? {
        r := r.(owned := before.owned);
        r := r.(snapshot := before.snapshot);
        r := r.(pending := intent);
        r := r.(proof := J.Sha(seen.value.residual));
      }
    }

    /** `Setup` */
    method Setup() returns (exit: J.Exit)
      modifies this`w, this`r
      ensures closed ==> exit == J.Failed && Now() == old(Now())
      ensures !closed ==> (Now(), exit) == J.Setup(site, tape, old(Now()))
    {
      hide J.Check, J.Baseline, J.Save, J.Change;
      exit := Check();
      if !exit.Done? { return; }
      if r.owned == PLAN_LENGTH { return J.Done; }
      if r.owned != 0 { return J.Failed; }
      exit := TakeBaseline();
      if !exit.Done? { return; }
      exit := Save();
      if !exit.Done? { return; }
      exit := AddAll();
    }

    method TakeBaseline() returns (exit: J.Exit)
      modifies this`w, this`r
      ensures (Now(), exit) == J.Baseline(site, tape, old(Now()))
    {
      hide J.Capture, J.ObserveScoped, J.FreshNamespace;
      if site.scoped {
        var seen := ObserveScoped();
        if seen.Bad? { return J.Failed; }
        if seen.Dead? { return J.Crashed; }
        if !CountsMatch(seen.value.counts, 0) { return J.Failed; }
        r := r.(snapshot := J.Sha(seen.value.digest));
        return J.Done;
      }
      var outputs := Capture();
      if outputs.Bad? { return J.Failed; }
      if outputs.Dead? { return J.Crashed; }
      if |outputs.value| != 3 || !J.FreshNamespace(outputs.value) { return J.Failed; }
      var again := Capture();
      r := r.(snapshot := match again case Got(o) => J.Sha(Texts(o)) case _ => J.Empty);
      exit := again.Leave();
    }

    /** The loop of `Setup`. */
    method AddAll() returns (exit: J.Exit)
      requires !closed
      modifies this`w, this`r
      ensures (Now(), exit) == J.AddAll(site, tape, old(Now()))
    {
      hide J.Change;
      while r.owned < PLAN_LENGTH
        invariant J.AddAll(site, tape, old(Now())) == J.AddAll(site, tape, Now())
        decreases PLAN_LENGTH - r.owned
      {
        exit := Change("add");
        if !exit.Done? { return; }
      }
      exit := J.Done;
    }

    /** The loop of `Recover`. */
    method RemoveAll() returns (exit: J.Exit)
      requires !closed
      modifies this`w, this`r
      ensures (Now(), exit) == J.RemoveAll(site, tape, old(Now()))
    {
      hide J.Change;
      while r.owned > 0
        invariant J.RemoveAll(site, tape, old(Now())) == J.RemoveAll(site, tape, Now())
        decreases r.owned
      {
        exit := Change("remove");
        if !exit.Done? { return; }
      }
      exit := J.Done;
    }

    /** `reconcile` */
    method Reconcile() returns (exit: J.Exit)
      modifies this`w, this`r
      ensures (Now(), exit) == J.Reconcile(site, tape, old(Now()))
    {
      hide J.Witness, J.Save;
      if (r.version != 2 && r.version != 3) || r.proof == J.Empty { return J.Failed; }
      var index := r.owned;
      if r.pending == "remove" { index := index - 1; }
      var seen := Witness(index);
      if !seen.Got? { return seen.Leave(); }
      if J.Sha(seen.value.residual) != r.proof { return J.Failed; }
      var owned := r.owned;
      var after := owned + 1;
      if r.pending == "remove" { after := owned - 1; }
      if CountsMatch(seen.value.counts, after) {
        owned := after;
      } else if !CountsMatch(seen.value.counts, owned) {
        return J.Failed;
      }
      var before := r;
      r := r.(owned := owned);
      r := r.(snapshot := J.Sha(seen.value.whole));
      r := r.(pending := "");
      r := r.(proof := J.Empty);
      exit := Save();
      if !exit.Done? { r := before; }
    }

    /** `ResolvePending` */
    method ResolvePending() returns (exit: J.Exit)
      modifies this`w, this`r
      ensures closed ==> exit == J.Failed && Now() == old(Now())
      ensures !closed ==> (Now(), exit) == J.Resolve(site, tape, old(Now()))
    {
      hide J.Check, J.Reconcile;
      if closed { return J.Failed; }
      if r.pending != "" { exit := Reconcile(); } else { exit := Check(); }
    }

    /** `Recover` */
    method Recover() returns (exit: J.Exit)
      modifies this`w, this`r
      ensures closed ==> exit == J.Failed && Now() == old(Now())
      ensures !closed ==> (Now(), exit) == J.Recover(site, tape, old(Now()))
    {
      hide J.Check, J.Reconcile, J.RemoveAll;
      if closed { return J.Failed; }
      if r.pending != "" {
        exit := Reconcile();
        if !exit.Done? { return; }
      }
      exit := Check();
      if !exit.Done? { return; }
      exit := RemoveAll();
    }
  }
}
