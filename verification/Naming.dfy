/** certificate.go and cert_mount.go: file names for certificates. Names are
    "<subject hash>.<n>", many certificates share a subject hash, and the store
    a generation starts from already holds names of its own. */
module Naming {
  import opened Text

  /** A trust store entry, by what reading it yields. */
  datatype File = Certificate(id: string) | Opaque | Irregular

  type Dir = map<string, File>

  datatype Cert = Cert(id: string, subjectHash: string)

  const RESERVED := "reserved"

  /** SHA-256 fingerprints in hex. */
  predicate ValidId(id: string) {
    |id| == 64 && forall k :: 0 <= k < |id| ==> id[k] in "0123456789abcdef"
  }

  function FileName(subjectHash: string, n: nat): string {
    subjectHash + "." + FormatUint(n)
  }

  lemma FileNamesDiffer(subjectHash: string, m: nat, n: nat)
    requires FileName(subjectHash, m) == FileName(subjectHash, n)
    ensures m == n
  {
    var prefix := subjectHash + ".";
    assert FileName(subjectHash, m)[|prefix|..] == FormatUint(m);
    assert FileName(subjectHash, n)[|prefix|..] == FormatUint(n);
  }

  function FirstNames(subjectHash: string, n: nat): (names: set<string>)
    ensures |names| == n
    ensures forall k :: 0 <= k < n ==> FileName(subjectHash, k) in names
    ensures forall name :: name in names ==> exists k :: 0 <= k < n && name == FileName(subjectHash, k)
  {
    if n == 0 then {}
    else
      var fewer := FirstNames(subjectHash, n - 1);
      assert FileName(subjectHash, n - 1) !in fewer by {
        forall k | 0 <= k < n - 1 && FileName(subjectHash, k) == FileName(subjectHash, n - 1) ensures false {
          FileNamesDiffer(subjectHash, k, n - 1);
        }
      }
      fewer + {FileName(subjectHash, n - 1)}
  }

  /** A finite map cannot hold more names than it has. */
  lemma Pigeonhole(subjectHash: string, n: nat, existing: map<string, string>)
    requires forall k :: 0 <= k < n ==> FileName(subjectHash, k) in existing
    ensures n <= |existing|
  {
    Smaller(FirstNames(subjectHash, n), existing.Keys);
  }

  lemma {:induction false} Smaller(a: set<string>, b: set<string>)
    requires a <= b
    ensures |a| <= |b|
    decreases |a|
  {
    if a != {} {
      var x :| x in a;
      Smaller(a - {x}, b - {x});
    }
  }

  /** Go visits a map in any order; `order` lists the names as one loop meets them. */
  predicate Lists(order: seq<string>, existing: map<string, string>) {
    (set name | name in order) == existing.Keys
  }

  /** The first name of the loop that holds the certificate. */
  function FirstHolding(order: seq<string>, existing: map<string, string>, id: string): (name: Option<string>)
    ensures name.Some? ==> name.value in existing && existing[name.value] == id
    ensures name.None? ==> forall n :: n in order && n in existing ==> existing[n] != id
  {
    if order == [] then None
    else if order[0] in existing && existing[order[0]] == id then Some(order[0])
    else FirstHolding(order[1..], existing, id)
  }

  /** The counting loop from i on. */
  function FirstFree(c: Cert, existing: map<string, string>, i: nat): (name: string)
    requires forall k :: 0 <= k < i ==> FileName(c.subjectHash, k) in existing
    requires c.id !in existing.Values
    ensures name !in existing
    ensures exists n :: i <= n <= |existing| && name == FileName(c.subjectHash, n)
    ensures forall k :: 0 <= k < i ==> name != FileName(c.subjectHash, k)
    decreases |existing| - i
  {
    Pigeonhole(c.subjectHash, i, existing);
    if FileName(c.subjectHash, i) !in existing then FileName(c.subjectHash, i)
    else
      Pigeonhole(c.subjectHash, i + 1, existing);
      FirstFree(c, existing, i + 1)
  }

  function Allocated(order: seq<string>, c: Cert, existing: map<string, string>): (string, bool)
    requires Lists(order, existing)
  {
    var held := FirstHolding(order, existing, c.id);
    if held.Some? then (held.value, true) else (NotHeld(order, c, existing); (FirstFree(c, existing, 0), false))
  }

  lemma NotHeld(order: seq<string>, c: Cert, existing: map<string, string>)
    requires Lists(order, existing)
    ensures FirstHolding(order, existing, c.id).None? ==> c.id !in existing.Values
  {
    assert forall n :: n in existing ==> n in (set name | name in order);
  }

  /** `AllocateName`: a name that already holds this certificate, or else the
      first name nobody holds. */
  method AllocateName(order: seq<string>, c: Cert, existing: map<string, string>) returns (name: string, reused: bool)
    requires Lists(order, existing)
    ensures (name, reused) == Allocated(order, c, existing)
    ensures reused <==> c.id in existing.Values
    ensures reused ==> name in existing && existing[name] == c.id
    ensures !reused ==> name !in existing && exists n :: (
      0 <= n <= |existing| && name == FileName(c.subjectHash, n)
      && forall k :: 0 <= k < n ==> FileName(c.subjectHash, k) in existing)
  {
    NotHeld(order, c, existing);
    var k := 0;
    assert order[0..] == order;
    while k < |order|
      invariant 0 <= k <= |order|
      invariant FirstHolding(order, existing, c.id) == FirstHolding(order[k..], existing, c.id)
    {
      var other := order[k];
      assert order[k..][0] == other && order[k..][1..] == order[k + 1..];
      assert other in (set n | n in order);
      if existing[other] == c.id {
        return other, true;
      }
      k := k + 1;
    }
    assert c.id !in existing.Values;
    var i := 0;
    name := FileName(c.subjectHash, i);
    while name in existing && existing[name] != c.id
      invariant 0 <= i <= |existing| && name == FileName(c.subjectHash, i)
      invariant forall k :: 0 <= k < i ==> FileName(c.subjectHash, k) in existing
      invariant FirstFree(c, existing, 0) == FirstFree(c, existing, i)
      decreases |existing| - i
    {
      assert forall k :: 0 <= k < i + 1 ==> FileName(c.subjectHash, k) in existing;
      Pigeonhole(c.subjectHash, i + 1, existing);
      i := i + 1;
      name := FileName(c.subjectHash, i);
    }
    reused := name in existing;
  }

  /** `live` is `base` with every managed certificate added under its own name. */
  predicate Extends(base: Dir, managed: set<string>, live: Dir, files: map<string, string>) {
    && files.Keys == managed
    && (forall name :: name in base ==> name in live && live[name] == base[name])
    && (forall id :: id in managed ==> files[id] in live && live[files[id]] == Certificate(id))
    && live.Keys == base.Keys + files.Values
  }

  predicate Regular(dir: Dir) {
    forall name :: name in dir ==> !dir[name].Irregular?
  }

  function IdOf(f: File): string {
    if f.Certificate? then f.id else RESERVED
  }

  function Ids(managed: seq<Cert>): set<string> {
    set c | c in managed :: c.id
  }

  lemma ValuesNext(files: map<string, string>, id: string, name: string)
    requires id !in files
    ensures files[id := name].Values == files.Values + {name}
  {
    var next := files[id := name];
    assert forall other :: other in files ==> other in next && next[other] == files[other];
    assert next[id] == name;
    assert forall v :: v in next.Values <==> v in files.Values + {name};
  }

  lemma ExtendsNext(base: Dir, managed: set<string>, live: Dir, files: map<string, string>, id: string, name: string)
    requires Extends(base, managed, live, files) && id !in managed
    requires name in live ==> live[name] == Certificate(id)
    ensures Extends(base, managed + {id}, live[name := Certificate(id)], files[id := name])
  {
    ValuesNext(files, id, name);
    var more := live[name := Certificate(id)];
    assert forall other :: other in managed ==> files[other] in live && files[other] != name;
    assert more.Keys == live.Keys + {name};
  }

  lemma ExtendsNothing(base: Dir)
    ensures Extends(base, {}, base, map[])
  {
  }

  datatype Names = Names(live: Dir, files: map<string, string>)

  function HeldIds(dir: Dir): map<string, string> {
    map name | name in dir :: IdOf(dir[name])
  }

  /** The entries an inventory can hold: fingerprints, and all different. */
  predicate ValidCerts(managed: seq<Cert>) {
    && (forall c :: c in managed ==> ValidId(c.id))
    && (forall i, j :: 0 <= i < j < |managed| ==> managed[i].id != managed[j].id)
  }

  /** The naming loop of `planTrust` over the first n certificates; orders[i] is how
      the i-th search visits the names. None: it is not a listing of them. */
  function Named(orders: seq<seq<string>>, base: Dir, managed: seq<Cert>, n: nat): Option<Names>
    requires n <= |managed|
  {
    if n == 0 then Some(Names(base, map[]))
    else
      var before := Named(orders, base, managed, n - 1);
      if before.None? || n > |orders| || !Lists(orders[n - 1], HeldIds(before.value.live)) then None
      else
        var c := managed[n - 1];
        var (name, _) := Allocated(orders[n - 1], c, HeldIds(before.value.live));
        Some(Names(before.value.live[name := Certificate(c.id)], before.value.files[c.id := name]))
  }

  /** What the naming loop promises: the baseline kept, every managed certificate
      added under its own name, and nothing else. */
  lemma {:induction false} NamedExtends(orders: seq<seq<string>>, base: Dir, managed: seq<Cert>, n: nat)
    requires n <= |managed| && ValidCerts(managed) && Named(orders, base, managed, n).Some?
    ensures var names := Named(orders, base, managed, n).value; Extends(base, Ids(managed[..n]), names.live, names.files)
  {
    hide Extends, ValidId, Ids, Allocated;
    if n == 0 {
      ExtendsNothing(base);
      assert Ids(managed[..0]) == {} by { NoIds(); }
    } else {
      NamedExtends(orders, base, managed, n - 1);
      var before := Named(orders, base, managed, n - 1).value;
      var c := managed[n - 1];
      assert c in managed;
      NotReserved(c.id);
      AllocatedHolds(orders[n - 1], c, before.live);
      NextId(managed, n - 1);
      assert managed[..n] == managed[..n - 1] + [c];
      var (name, _) := Allocated(orders[n - 1], c, HeldIds(before.live));
      ExtendsNext(base, Ids(managed[..n - 1]), before.live, before.files, c.id, name);
    }
  }

  lemma AllocatedHolds(order: seq<string>, c: Cert, live: Dir)
    requires Lists(order, HeldIds(live)) && c.id != RESERVED
    ensures var (name, _) := Allocated(order, c, HeldIds(live)); name in live ==> live[name] == Certificate(c.id)
  {
  }

  /** The naming loop of `planTrust`. */
  method Prepare(orders: seq<seq<string>>, base: Dir, managed: seq<Cert>) returns (names: Option<Names>)
    ensures names == Named(orders, base, managed, |managed|)
    ensures names.Some? && ValidCerts(managed) ==> Extends(base, Ids(managed), names.value.live, names.value.files)
  {
    hide Allocated, Extends, Ids, ValidCerts, Lists;
    var live, files := base, map[];
    var held := HeldIds(base);
    var i := 0;
    while i < |managed|
      invariant 0 <= i <= |managed|
      invariant Named(orders, base, managed, i) == Some(Names(live, files))
      invariant held == HeldIds(live)
    {
      var c := managed[i];
      if i >= |orders| || !Lists(orders[i], held) {
        NoneStays(orders, base, managed, i + 1, |managed|);
        return None;
      }
      var name, reused := AllocateName(orders[i], c, held);
      held := held[name := c.id];
      files := files[c.id := name];
      live := live[name := Certificate(c.id)];
      i := i + 1;
    }
    names := Some(Names(live, files));
    assert managed[..|managed|] == managed;
    if ValidCerts(managed) { NamedExtends(orders, base, managed, |managed|); }
  }

  lemma {:induction false} NoneStays(orders: seq<seq<string>>, base: Dir, managed: seq<Cert>, m: nat, n: nat)
    requires m <= n <= |managed| && Named(orders, base, managed, m).None?
    ensures Named(orders, base, managed, n).None?
    decreases n
  {
    if m < n { NoneStays(orders, base, managed, m, n - 1); }
  }

  /** Some order of any finite set of names. */
  lemma {:induction false} ListNames(names: set<string>) returns (order: seq<string>)
    ensures (set name | name in order) == names
    decreases |names|
  {
    if names == {} {
      order := [];
    } else {
      var name :| name in names;
      var others := ListNames(names - {name});
      order := others + [name];
      assert forall x :: x in order <==> x in others || x == name;
      assert forall x :: x in others <==> x in (set y | y in others);
      assert (set x | x in order) == (names - {name}) + {name};
    }
  }

  /** The naming loop always ends with names for everybody. */
  lemma {:induction false} CanName(base: Dir, managed: seq<Cert>, n: nat) returns (orders: seq<seq<string>>)
    requires n <= |managed|
    ensures |orders| == n && Named(orders, base, managed, n).Some?
  {
    hide Allocated;
    if n == 0 {
      orders := [];
    } else {
      var before := CanName(base, managed, n - 1);
      var order := ListNames(HeldIds(Named(before, base, managed, n - 1).value.live).Keys);
      orders := before + [order];
      SameOrders(before, orders, base, managed, n - 1);
    }
  }

  lemma {:induction false} SameOrders(a: seq<seq<string>>, b: seq<seq<string>>, base: Dir, managed: seq<Cert>, n: nat)
    requires n <= |managed| && n <= |a| && a <= b
    ensures Named(a, base, managed, n) == Named(b, base, managed, n)
  {
    hide Allocated;
    if n > 0 {
      SameOrders(a, b, base, managed, n - 1);
      assert a[n - 1] == b[n - 1];
    }
  }

  lemma NotReserved(id: string)
    ensures ValidId(id) ==> id != RESERVED
  {
  }

  lemma NoIds()
    ensures Ids([]) == {}
  {
  }

  lemma NextId(managed: seq<Cert>, i: nat)
    requires i < |managed| && forall i, j :: 0 <= i < j < |managed| ==> managed[i].id != managed[j].id
    ensures Ids(managed[..i] + [managed[i]]) == Ids(managed[..i]) + {managed[i].id}
    ensures managed[i].id !in Ids(managed[..i])
  {
    var before := managed[..i];
    assert forall c :: c in before + [managed[i]] <==> c in before || c == managed[i];
    assert forall k :: 0 <= k < i ==> before[k] == managed[k];
  }

  /** Distinct certificates never share a name, and a managed name that the
      baseline already used held the same certificate there. */
  lemma NamesDistinct(base: Dir, managed: set<string>, live: Dir, files: map<string, string>, a: string, b: string)
    requires Extends(base, managed, live, files) && a in managed && b in managed
    ensures a != b ==> files[a] != files[b]
    ensures files[a] in base ==> base[files[a]] == Certificate(a)
  {
    assert live[files[a]] == Certificate(a) && live[files[b]] == Certificate(b);
  }
}
