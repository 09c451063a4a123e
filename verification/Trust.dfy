/** cert_mount.go: the CA overlay. Each (mount namespace, target directory) is a
    spot carrying a stack of bind mounts; the module pushes generations that
    hold an immutable copy of the original store and a live directory. */
module Trust {
  import opened Text
  import opened Naming

  /** A namespace stands for all that share its mount events. */
  type Spot = (nat, string)

  datatype Layer = Owned(gen: nat) | Foreign(root: string, dir: Dir)

  datatype Generation = Generation(target: string, base: Dir, live: Dir, files: map<string, string>)

  /** One record of mounts.json. */
  datatype Mount = Mount(spot: Spot, gen: nat)

  datatype Entry = Entry(id: string, subjectHash: string, managed: bool)

  type Inventory = seq<Entry>

  datatype World = World(
    stacks: map<Spot, seq<Layer>>,
    store: map<string, Dir>,
    gens: seq<Generation>,
    record: Option<seq<Mount>>,
    inventory: Inventory,
    clock: nat)

  datatype Verdict = Succeed | Fail(effect: bool) | Crash(effect: bool)

  /** What time brings: a verdict, and where a generation is prepared the orders in
      which its naming loop happens to visit the names. */
  datatype Choice = Choice(verdict: Verdict, orders: seq<seq<string>>)

  type Tape = nat -> Choice

  /** Failed: an error that left everything as it was. Unsaved: rolled back, but
      mounts.json still names the new plan. Incomplete: some layer may be left. */
  datatype Exit = Done | Failed | Unsaved | Incomplete | Crashed

  const LAYER_LIMIT: nat := 32
  const POP_LIMIT: nat := 64

  function Stack(w: World, s: Spot): seq<Layer> {
    if s in w.stacks then w.stacks[s] else []
  }

  function Store(w: World, target: string): Dir {
    if target in w.store then w.store[target] else map[]
  }

  predicate OnTop(w: World, m: Mount) {
    var stack := Stack(w, m.spot);
    stack != [] && stack[|stack| - 1] == Owned(m.gen)
  }

  predicate OwnedTop(w: World, s: Spot) {
    Stack(w, s) != [] && Stack(w, s)[|Stack(w, s)| - 1].Owned?
  }

  /** The directory seen through a stack of layers. */
  function Through(w: World, target: string, stack: seq<Layer>): Dir {
    if stack == [] then Store(w, target)
    else
      match stack[|stack| - 1]
      case Foreign(_, dir) => dir
      case Owned(g) => if g < |w.gens| then w.gens[g].live else map[]
  }

  function Visible(w: World, s: Spot): Dir {
    Through(w, s.1, Stack(w, s))
  }

  function Managed(inv: Inventory): set<string> {
    set e | e in inv && e.managed :: e.id
  }

  /** The managed entries, in the inventory's order. */
  function ManagedCerts(inv: Inventory): seq<Cert> {
    if inv == [] then []
    else (if inv[0].managed then [Cert(inv[0].id, inv[0].subjectHash)] else []) + ManagedCerts(inv[1..])
  }

  lemma {:induction false} ManagedIds(inv: Inventory)
    ensures Ids(ManagedCerts(inv)) == Managed(inv)
    ensures ManagedCerts(inv) == [] <==> Managed(inv) == {}
  {
    if inv != [] {
      ManagedIds(inv[1..]);
      var rest := ManagedCerts(inv[1..]);
      assert forall e :: e in inv <==> e == inv[0] || e in inv[1..];
      if inv[0].managed {
        var c := Cert(inv[0].id, inv[0].subjectHash);
        assert forall d :: d in [c] + rest <==> d == c || d in rest;
        assert inv[0].id in Managed(inv);
      }
      assert Ids(ManagedCerts(inv)) == (if inv[0].managed then {inv[0].id} else {}) + Ids(rest);
      assert Managed(inv) == (if inv[0].managed then {inv[0].id} else {}) + Managed(inv[1..]);
    }
  }

  function Row(ns: nat, targets: seq<string>): seq<Spot> {
    seq(|targets|, (i: nat) requires i < |targets| => (ns, targets[i]))
  }

  /** The two loops over `detectTrust`'s namespaces and targets. */
  function Spots(namespaces: seq<nat>, targets: seq<string>): seq<Spot> {
    if namespaces == [] then [] else Row(namespaces[0], targets) + Spots(namespaces[1..], targets)
  }

  // ---- single commands ----

  function ExitOf(v: Verdict): Exit {
    match v case Succeed => Done case Fail(_) => Failed case Crash(_) => Crashed
  }

  function Ask(tape: Tape, w: World): (World, Exit) {
    (w.(clock := w.clock + 1), ExitOf(tape(w.clock).verdict))
  }

  function Push(tape: Tape, w: World, m: Mount): (World, Exit) {
    var v := tape(w.clock).verdict;
    var next := w.(clock := w.clock + 1);
    (if v.Succeed? || v.effect then next.(stacks := w.stacks[m.spot := Stack(w, m.spot) + [Owned(m.gen)]]) else next, ExitOf(v))
  }

  function Pop(tape: Tape, w: World, s: Spot): (World, Exit) {
    var v := tape(w.clock).verdict;
    var next := w.(clock := w.clock + 1);
    var stack := Stack(w, s);
    if stack == [] then (next, if v.Crash? then Crashed else Failed)
    else (if v.Succeed? || v.effect then next.(stacks := w.stacks[s := stack[..|stack| - 1]]) else next, ExitOf(v))
  }

  /** `saveMounts`: a rename that fails changed nothing. */
  function SaveMounts(tape: Tape, w: World, mounts: seq<Mount>): (World, Exit) {
    var v := tape(w.clock).verdict;
    var next := w.(clock := w.clock + 1);
    (if v.Succeed? || (v.Crash? && v.effect) then next.(record := Some(mounts)) else next, ExitOf(v))
  }

  function SaveInventory(tape: Tape, w: World, inv: Inventory): (World, Exit) {
    var v := tape(w.clock).verdict;
    var next := w.(clock := w.clock + 1);
    (if v.Succeed? || (v.Crash? && v.effect) then next.(inventory := inv) else next, ExitOf(v))
  }

  /** `mountState` */
  function Recorded(w: World): seq<Mount> {
    if w.record.Some? then w.record.value else []
  }

  // ---- planTrust ----

  function BaseOf(w: World, s: Spot): Dir {
    var stack := Stack(w, s);
    if OwnedTop(w, s) then (var g := stack[|stack| - 1].gen; if g < |w.gens| then w.gens[g].base else map[])
    else Visible(w, s)
  }

  /** One generation: copy the base, name the certificates, write and label. The
      one outcome stands for all of its reads and writes. */
  function NewGeneration(tape: Tape, w: World, s: Spot, certs: seq<Cert>): (World, Exit) {
    var c := tape(w.clock);
    var next := w.(clock := w.clock + 1);
    var base := BaseOf(w, s);
    var names := Named(c.orders, base, certs, |certs|);
    if c.verdict.Crash? then (next, Crashed)
    else if c.verdict.Succeed? && Regular(base) && ValidCerts(certs) && names.Some? then
      (next.(gens := w.gens + [Generation(s.1, base, names.value.live, names.value.files)]), Done)
    else (next, Failed)
  }

  function PlanTrust(tape: Tape, w: World, certs: seq<Cert>, spots: seq<Spot>, prepared: map<string, nat>, plans: seq<Mount>)
    : (World, Exit, seq<Mount>)
    decreases |spots|
  {
    if spots == [] then (w, Done, plans)
    else
      var s := spots[0];
      if |Stack(w, s)| >= LAYER_LIMIT then (w, Failed, plans)
      else if Stack(w, s) != [] && !OwnedTop(w, s) then (w, Failed, plans)
      else if s.1 in prepared then
        PlanTrust(tape, w, certs, spots[1..], prepared, plans + [Mount(s, prepared[s.1])])
      else
        var (next, exit) := NewGeneration(tape, w, s, certs);
        if !exit.Done? then (next, exit, plans)
        else PlanTrust(tape, next, certs, spots[1..], prepared[s.1 := |w.gens|], plans + [Mount(s, |w.gens|)])
  }

  // ---- applyTrust ----

  /** `verifyMount`: our layer is on top and shows every managed certificate. */
  function Verify(tape: Tape, w: World, m: Mount): (World, Exit) {
    var next := w.(clock := w.clock + 1);
    var v := tape(w.clock).verdict;
    var good := OnTop(w, m) && m.gen < |w.gens| && (var g := w.gens[m.gen];
      forall id :: id in g.files ==> g.files[id] in g.live && g.live[g.files[id]] == Certificate(id));
    (next, if v.Crash? then Crashed else if v.Succeed? && good then Done else Failed)
  }

  function MountAll(tape: Tape, w: World, plans: seq<Mount>): (World, Exit)
    decreases |plans|
  {
    if plans == [] then (w, Done)
    else if OnTop(w, plans[0]) then MountAll(tape, w, plans[1..])
    else
      var (w1, pushed) := Push(tape, w, plans[0]);
      if !pushed.Done? then (w1, pushed)
      else
        var (w2, seen) := Verify(tape, w1, plans[0]);
        if !seen.Done? then (w2, seen) else MountAll(tape, w2, plans[1..])
  }

  function VerifyAll(tape: Tape, w: World, plans: seq<Mount>): (World, Exit)
    decreases |plans|
  {
    if plans == [] then (w, Done)
    else
      var (next, seen) := Verify(tape, w, plans[0]);
      if !seen.Done? then (next, seen) else VerifyAll(tape, next, plans[1..])
  }

  /** The Android probe of every managed certificate. */
  function ProbeAll(tape: Tape, w: World, inv: Inventory): (World, Exit)
    decreases |inv|
  {
    if inv == [] then (w, Done)
    else if !inv[0].managed then ProbeAll(tape, w, inv[1..])
    else
      var (next, trusted) := Ask(tape, w);
      if !trusted.Done? then (next, trusted) else ProbeAll(tape, next, inv[1..])
  }

  function Rollback(tape: Tape, w: World, plans: seq<Mount>, n: nat, clean: bool, before: seq<Mount>): (World, Exit)
    requires n <= |plans|
    decreases n
  {
    if n == 0 then
      if !clean then (w, Incomplete)
      else
        var (next, saved) := SaveMounts(tape, w, before);
        (next, match saved case Done => Failed case Crashed => Crashed case _ => Unsaved)
    else if !OnTop(w, plans[n - 1]) then Rollback(tape, w, plans, n - 1, clean, before)
    else
      var (next, popped) := Pop(tape, w, plans[n - 1].spot);
      if popped.Crashed? then (next, Crashed)
      else Rollback(tape, next, plans, n - 1, clean && popped.Done?, before)
  }

  function Install(tape: Tape, w: World, plans: seq<Mount>, inv: Inventory): (World, Exit) {
    var (w1, mounted) := MountAll(tape, w, plans);
    if !mounted.Done? then (w1, mounted)
    else
      var (w2, seen) := VerifyAll(tape, w1, plans);
      if !seen.Done? then (w2, seen) else ProbeAll(tape, w2, inv)
  }

  function Apply(tape: Tape, w: World, spots: seq<Spot>, inv: Inventory): (World, Exit) {
    var (w1, found) := Ask(tape, w);
    if !found.Done? then (w1, found)
    else
      var (w2, planned, plans) := if ManagedCerts(inv) == [] then (w1, Done, []) else PlanTrust(tape, w1, ManagedCerts(inv), spots, map[], []);
      if !planned.Done? then (w2, planned)
      else if plans == [] then Remove(tape, w2, spots)
      else
        var (w3, saved) := SaveMounts(tape, w2, plans);
        if !saved.Done? then (w3, saved)
        else
          var (w4, installed) := Install(tape, w3, plans, inv);
          if installed.Done? || installed.Crashed? then (w4, installed)
          else Rollback(tape, w4, plans, |plans|, true, Recorded(w))
  }

  // ---- removeTrust ----

  function PopSpot(tape: Tape, w: World, s: Spot, i: nat): (World, Exit)
    requires i <= POP_LIMIT
    decreases POP_LIMIT - i
  {
    if !OwnedTop(w, s) then (w, Done)
    else if i >= POP_LIMIT then (w, Failed)
    else
      var (next, popped) := Pop(tape, w, s);
      if !popped.Done? then (next, popped) else PopSpot(tape, next, s, i + 1)
  }

  function PopAll(tape: Tape, w: World, spots: seq<Spot>): (World, Exit)
    decreases |spots|
  {
    if spots == [] then (w, Done)
    else
      var (next, popped) := PopSpot(tape, w, spots[0], 0);
      if !popped.Done? then (next, popped) else PopAll(tape, next, spots[1..])
  }

  function Remove(tape: Tape, w: World, spots: seq<Spot>): (World, Exit) {
    var (w1, found) := Ask(tape, w);
    if !found.Done? then (w1, found)
    else
      var (w2, popped) := PopAll(tape, w1, spots);
      if !popped.Done? then (w2, popped) else SaveMounts(tape, w2, [])
  }

  /** The end of `certAction` and of the Yakit update: apply, then save, and apply
      the old inventory again if the save failed. */
  function Commit(tape: Tape, w: World, spots: seq<Spot>, inv: Inventory): (World, Exit) {
    var (w1, applied) := Apply(tape, w, spots, inv);
    if !applied.Done? then (w1, applied)
    else
      var (w2, saved) := SaveInventory(tape, w1, inv);
      if !saved.Failed? then (w2, saved)
      else
        var (w3, compensated) := Apply(tape, w2, spots, w.inventory);
        (w3, match compensated case Done => Failed case Crashed => Crashed case _ => Incomplete)
  }
}
