/**
 Mounting labelled secrets into a deployment, as files or as environment variables, in an order that does not
 depend on how the API server lists them or how a map is iterated.
 */
module MountSecrets {
  import opened Cluster

  const MOUNT_AS := "che.eclipse.org/mount-as"
  const MOUNT_PATH := "che.eclipse.org/mount-path"
  const ENV_NAME := "che.eclipse.org/env-name"

  // ---------- order ----------

  /** Lexicographic comparison of text. */
  predicate Less(a: string, b: string) {
    b != "" && (a == "" || a[0] < b[0] || (a[0] == b[0] && Less(a[1..], b[1..])))
  }

  lemma {:induction false} LessIsTotal(a: string, b: string)
    ensures (if Less(a, b) then 1 else 0) + (if Less(b, a) then 1 else 0) + (if a == b then 1 else 0) == 1
  {
    if a != "" && b != "" && a[0] == b[0] {
      LessIsTotal(a[1..], b[1..]);
      assert a == [a[0]] + a[1..] && b == [b[0]] + b[1..];
    }
  }

  lemma {:induction false} LessIsTransitive(a: string, b: string, c: string)
    requires Less(a, b) && Less(b, c)
    ensures Less(a, c)
  {
    if a != "" && a[0] == b[0] == c[0] {
      LessIsTransitive(a[1..], b[1..], c[1..]);
    }
  }

  /** Up to here the two agree, and then the first is over or has the smaller character. */
  predicate LessAt(a: string, b: string, i: nat) {
    i <= |a| && i < |b| && a[..i] == b[..i] && (i < |a| ==> a[i] < b[i])
  }

  /** The usual order of text. */
  lemma {:induction false} LessMeans(a: string, b: string)
    ensures Less(a, b) <==> exists i: nat :: LessAt(a, b, i)
  {
    if Less(a, b) {
      if a == "" || a[0] < b[0] {
        assert LessAt(a, b, 0);
      } else {
        LessMeans(a[1..], b[1..]);
        var i: nat :| LessAt(a[1..], b[1..], i);
        assert a[..i + 1] == [a[0]] + a[1..][..i] && b[..i + 1] == [b[0]] + b[1..][..i];
        assert LessAt(a, b, i + 1);
      }
    }
    if i: nat :| LessAt(a, b, i) {
      if i > 0 {
        assert a[0] == a[..i][0] == b[..i][0] == b[0];
        assert a[1..][..i - 1] == a[..i][1..] && b[1..][..i - 1] == b[..i][1..];
        assert LessAt(a[1..], b[1..], i - 1);
        LessMeans(a[1..], b[1..]);
      }
    }
  }

  /** Strictly ascending by name. */
  predicate Ascending<T>(s: seq<T>, name: T -> string) {
    forall i, j | 0 <= i < j < |s| :: Less(name(s[i]), name(s[j]))
  }

  lemma SameFirst<T>(a: seq<T>, b: seq<T>, name: T -> string)
    requires Ascending(a, name) && Ascending(b, name) && multiset(a) == multiset(b) && a != []
    ensures b != [] && a[0] == b[0]
  {
    assert |multiset(a)| == |multiset(b)|;
    assert a[0] in multiset(b) && b[0] in multiset(a);
    var j :| 0 <= j < |b| && b[j] == a[0];
    var i :| 0 <= i < |a| && a[i] == b[0];
    LessIsTotal(name(a[0]), name(b[0]));
  }

  lemma {:induction false} AscendingIsUnique<T>(a: seq<T>, b: seq<T>, name: T -> string)
    requires Ascending(a, name) && Ascending(b, name) && multiset(a) == multiset(b)
    ensures a == b
  {
    if a == [] {
      assert |multiset(b)| == 0;
    } else {
      SameFirst(a, b, name);
      assert a == [a[0]] + a[1..] && b == [b[0]] + b[1..];
      assert multiset(a[1..]) == multiset(a) - multiset{a[0]};
      assert multiset(b[1..]) == multiset(b) - multiset{b[0]};
      AscendingIsUnique(a[1..], b[1..], name);
    }
  }

  predicate DistinctNames<T>(s: seq<T>, name: T -> string) {
    forall i, j | 0 <= i < j < |s| :: name(s[i]) != name(s[j])
  }

  function Insert<T>(x: T, s: seq<T>, name: T -> string): seq<T> {
    if s == [] || Less(name(x), name(s[0])) then [x] + s else [s[0]] + Insert(x, s[1..], name)
  }

  /** A sorted copy; any other way to sort distinctly named items gives the same. */
  function SortedByName<T>(s: seq<T>, name: T -> string): seq<T> {
    if s == [] then [] else Insert(s[0], SortedByName(s[1..], name), name)
  }

  lemma {:induction false} InsertSorts<T>(x: T, s: seq<T>, name: T -> string)
    requires Ascending(s, name) && forall i | 0 <= i < |s| :: name(s[i]) != name(x)
    ensures Ascending(Insert(x, s, name), name)
    ensures multiset(Insert(x, s, name)) == multiset{x} + multiset(s)
  {
    if s != [] {
      assert s == [s[0]] + s[1..];
      if Less(name(x), name(s[0])) {
        forall j | 0 < j < |s| ensures Less(name(x), name(s[j])) {
          LessIsTransitive(name(x), name(s[0]), name(s[j]));
        }
      } else {
        LessIsTotal(name(x), name(s[0]));
        InsertSorts(x, s[1..], name);
        var rest := Insert(x, s[1..], name);
        forall j | 0 <= j < |rest| ensures Less(name(s[0]), name(rest[j])) {
          assert rest[j] in multiset(rest);
          if rest[j] != x {
            assert rest[j] in multiset(s[1..]);
          }
        }
      }
    }
  }

  lemma {:induction false} Sorts<T>(s: seq<T>, name: T -> string)
    requires DistinctNames(s, name)
    ensures Ascending(SortedByName(s, name), name)
    ensures multiset(SortedByName(s, name)) == multiset(s)
  {
    if s != [] {
      Sorts(s[1..], name);
      var rest := SortedByName(s[1..], name);
      forall i | 0 <= i < |rest| ensures name(rest[i]) != name(s[0]) {
        assert rest[i] in multiset(s[1..]);
      }
      InsertSorts(s[0], rest, name);
      assert s == [s[0]] + s[1..];
    }
  }

  /** Sorting forgets the order it was given. */
  lemma SortForgetsOrder<T>(s: seq<T>, t: seq<T>, name: T -> string)
    requires DistinctNames(s, name) && multiset(s) == multiset(t)
    ensures DistinctNames(t, name)
    ensures SortedByName(s, name) == SortedByName(t, name)
  {
    PermutationStaysDistinct(s, t, name);
    Sorts(s, name);
    Sorts(t, name);
    AscendingIsUnique(SortedByName(s, name), SortedByName(t, name), name);
  }

  lemma PermutationStaysDistinct<T>(s: seq<T>, t: seq<T>, name: T -> string)
    requires DistinctNames(s, name) && multiset(s) == multiset(t)
    ensures DistinctNames(t, name)
  {
    forall i, j | 0 <= i < j < |t| ensures name(t[i]) != name(t[j]) {
      assert t[i] in multiset(s) && t[j] in multiset(s);
      if t[i] == t[j] {
        Twice(t, i, j);
        Once(s, t[i], name);
      }
    }
  }

  lemma Twice<T>(t: seq<T>, i: int, j: int)
    requires 0 <= i < j < |t| && t[i] == t[j]
    ensures multiset(t)[t[i]] >= 2
  {
    assert t == t[..i] + [t[i]] + t[i + 1..j] + [t[j]] + t[j + 1..];
  }

  lemma {:induction false} Once<T>(s: seq<T>, x: T, name: T -> string)
    requires DistinctNames(s, name)
    ensures multiset(s)[x] <= 1
  {
    if s != [] {
      Once(s[1..], x, name);
      assert s == [s[0]] + s[1..];
      forall j | 0 <= j < |s[1..]| ensures s[1..][j] != s[0] {
        assert name(s[0]) != name(s[j + 1]);
      }
    }
  }

  // ---------- mounting ----------

  /** A listed secret; its data is read again when it is mounted as environment variables. */
  datatype Secret = Secret(name: string, annotations: Fields)

  datatype VolumeMount = VolumeMount(name: string, path: string)

  datatype EnvVar = EnvVar(name: string, secret: string, key: string)

  /** The parts of a deployment that mounting appends to. */
  datatype Deployment = Deployment(volumes: seq<string>, mounts: seq<VolumeMount>, env: seq<EnvVar>)

  /** The deployment so far, and whether there was no error. */
  datatype Outcome = Outcome(d: Deployment, ok: bool)

  const SECRET_NAME: Secret -> string := (s: Secret) => s.name

  const ITSELF: string -> string := (s: string) => s

  function Get(m: Fields, k: string): string {
    if k in m then m[k] else ""
  }

  function EnvNameAnnotation(key: string): string {
    "che.eclipse.org/" + key + "_env-name"
  }

  /** The variable a data key is mounted as, if the annotations name it: one of its own, or the secret's only
      name if there is just one key. */
  function EnvName(s: Secret, key: string, keyCount: nat): Option<string> {
    if EnvNameAnnotation(key) in s.annotations then Some(s.annotations[EnvNameAnnotation(key)])
    else if keyCount > 1 then None
    else if ENV_NAME in s.annotations then Some(s.annotations[ENV_NAME])
    else None
  }

  function MountingKeys(d: Deployment, s: Secret, keys: seq<string>, keyCount: nat): Outcome
    decreases |keys|
  {
    if keys == [] then Outcome(d, true)
    else
      var envName := EnvName(s, keys[0], keyCount);
      if envName.None? then Outcome(d, false)
      else MountingKeys(d.(env := d.env + [EnvVar(envName.value, s.name, keys[0])]), s, keys[1..], keyCount)
  }

  /** The keys of a map, ascending. */
  ghost function AscendingKeys(m: Fields): seq<string>
  {
    SortedByName(Listing(m.Keys), ITSELF)
  }

  /** Some way to list a set. */
  ghost function Listing(s: set<string>): (l: seq<string>)
    ensures DistinctNames(l, ITSELF) && multiset(l) == multiset(s)
  {
    if s == {} then []
    else
      var x :| x in s;
      var rest := Listing(s - {x});
      assert forall i | 0 <= i < |rest| :: rest[i] in multiset(rest);
      [x] + rest
  }

  /** `stored` holds the data of every secret in the namespace. */
  ghost function MountingOne(d: Deployment, s: Secret, stored: map<string, Fields>): Outcome {
    var mountAs := Get(s.annotations, MOUNT_AS);
    if mountAs == "file" then
      Outcome(d.(volumes := d.volumes + [s.name],
                 mounts := d.mounts + [VolumeMount(s.name, Get(s.annotations, MOUNT_PATH))]), true)
    else if mountAs == "env" then
      if s.name !in stored then Outcome(d, false)
      else MountingKeys(d, s, AscendingKeys(stored[s.name]), |stored[s.name]|)
    else Outcome(d, true)
  }

  ghost function MountingSorted(d: Deployment, l: seq<Secret>, stored: map<string, Fields>): Outcome
    decreases |l|
  {
    if l == [] then Outcome(d, true)
    else
      var o := MountingOne(d, l[0], stored);
      if !o.ok then o else MountingSorted(o.d, l[1..], stored)
  }

  ghost function Mounting(d: Deployment, listed: seq<Secret>, stored: map<string, Fields>): Outcome {
    MountingSorted(d, SortedByName(listed, SECRET_NAME), stored)
  }

  /** The outcome does not depend on the order in which the secrets are listed. */
  lemma MountingForgetsOrder(d: Deployment, l: seq<Secret>, m: seq<Secret>, stored: map<string, Fields>)
    requires DistinctNames(l, SECRET_NAME) && multiset(l) == multiset(m)
    ensures Mounting(d, l, stored) == Mounting(d, m, stored)
  {
    SortForgetsOrder(l, m, SECRET_NAME);
  }

  // ---------- what is mounted ----------

  predicate IsFile(s: Secret) {
    Get(s.annotations, MOUNT_AS) == "file"
  }

  predicate IsEnv(s: Secret) {
    Get(s.annotations, MOUNT_AS) == "env"
  }

  /** The annotation that names the variable of one key. */
  predicate IsNamed(s: Secret, key: string) {
    "che.eclipse.org/" + key + "_env-name" in s.annotations
  }

  /** A secret that can be mounted: as variables only if it is there, and every key has a name of its own, or the
      only key has that of the secret. */
  ghost predicate Mountable(s: Secret, stored: map<string, Fields>) {
    IsEnv(s) ==>
      && s.name in stored
      && forall k | k in stored[s.name] ::
          IsNamed(s, k) || (|stored[s.name]| == 1 && "che.eclipse.org/env-name" in s.annotations)
  }

  /** The variable a key becomes: its own name comes before that of the secret. */
  function VarName(s: Secret, key: string): string {
    Get(s.annotations, if IsNamed(s, key) then "che.eclipse.org/" + key + "_env-name" else "che.eclipse.org/env-name")
  }

  lemma NameIs(s: Secret, key: string, n: nat)
    ensures EnvName(s, key, n).Some? <==> IsNamed(s, key) || (n <= 1 && "che.eclipse.org/env-name" in s.annotations)
    ensures EnvName(s, key, n).Some? ==> EnvName(s, key, n).value == VarName(s, key)
  {
  }

  lemma {:induction false} KeysMount(d: Deployment, s: Secret, keys: seq<string>, n: nat)
    ensures var o := MountingKeys(d, s, keys, n);
            && o.d.volumes == d.volumes && o.d.mounts == d.mounts
            && (o.ok <==> forall i | 0 <= i < |keys| :: EnvName(s, keys[i], n).Some?)
            && (o.ok ==> o.d.env == d.env + Vars(s, keys))
            && d.env <= o.d.env
    decreases |keys|
  {
    if keys != [] {
      var envName := EnvName(s, keys[0], n);
      NameIs(s, keys[0], n);
      if envName.Some? {
        KeysMount(d.(env := d.env + [EnvVar(envName.value, s.name, keys[0])]), s, keys[1..], n);
        assert forall i | 0 < i < |keys| :: keys[i] == keys[1..][i - 1];
      }
    }
  }

  /** One variable for each key, in their order. */
  function Vars(s: Secret, keys: seq<string>): (r: seq<EnvVar>)
    ensures |r| == |keys|
  {
    if keys == [] then [] else [EnvVar(VarName(s, keys[0]), s.name, keys[0])] + Vars(s, keys[1..])
  }

  function VolumesOf(s: Secret): seq<string> {
    if IsFile(s) then [s.name] else []
  }

  function MountsOf(s: Secret): seq<VolumeMount> {
    if IsFile(s) then [VolumeMount(s.name, Get(s.annotations, MOUNT_PATH))] else []
  }

  ghost function VarsOf(s: Secret, stored: map<string, Fields>): seq<EnvVar> {
    if IsEnv(s) && s.name in stored then Vars(s, AscendingKeys(stored[s.name])) else []
  }

  function FileVolumes(l: seq<Secret>): seq<string> {
    if l == [] then [] else VolumesOf(l[0]) + FileVolumes(l[1..])
  }

  function FileMounts(l: seq<Secret>): seq<VolumeMount> {
    if l == [] then [] else MountsOf(l[0]) + FileMounts(l[1..])
  }

  ghost function EnvVars(l: seq<Secret>, stored: map<string, Fields>): seq<EnvVar> {
    if l == [] then [] else VarsOf(l[0], stored) + EnvVars(l[1..], stored)
  }

  lemma KeysAreListed(m: Fields)
    ensures |AscendingKeys(m)| == |m|
    ensures forall k :: k in AscendingKeys(m) <==> k in m
    ensures Ascending(AscendingKeys(m), ITSELF)
  {
    var l := Listing(m.Keys);
    Sorts(l, ITSELF);
    assert |multiset(l)| == |multiset(m.Keys)| == |m.Keys|;
    assert |AscendingKeys(m)| == |multiset(AscendingKeys(m))|;
    forall k ensures k in AscendingKeys(m) <==> k in m {
      assert k in AscendingKeys(m) <==> k in multiset(AscendingKeys(m));
      assert k in multiset(m.Keys) <==> k in m;
    }
  }

  lemma {:induction false} MountsIfMountable(d: Deployment, l: seq<Secret>, stored: map<string, Fields>)
    ensures MountingSorted(d, l, stored).ok <==> forall i | 0 <= i < |l| :: Mountable(l[i], stored)
    decreases |l|
  {
    if l != [] {
      var o := MountingOne(d, l[0], stored);
      OneMounts(d, l[0], stored);
      MountsIfMountable(o.d, l[1..], stored);
      assert forall i | 0 < i < |l| :: l[i] == l[1..][i - 1];
    }
  }

  lemma {:induction false} MountingAdds(d: Deployment, l: seq<Secret>, stored: map<string, Fields>)
    requires MountingSorted(d, l, stored).ok
    ensures MountingSorted(d, l, stored).d
            == Deployment(d.volumes + FileVolumes(l), d.mounts + FileMounts(l), d.env + EnvVars(l, stored))
    decreases |l|
  {
    if l != [] {
      var o := MountingOne(d, l[0], stored);
      OneMounts(d, l[0], stored);
      MountingAdds(o.d, l[1..], stored);
      Associates(d.volumes, VolumesOf(l[0]), FileVolumes(l[1..]));
      Associates(d.mounts, MountsOf(l[0]), FileMounts(l[1..]));
      Associates(d.env, VarsOf(l[0], stored), EnvVars(l[1..], stored));
    }
  }

  lemma Associates<T>(a: seq<T>, b: seq<T>, c: seq<T>)
    ensures (a + b) + c == a + (b + c)
  {
  }

  /** Exactly the mountable secrets mount, and then: one volume and one mount for each file secret, one variable
      for each key of each variable secret, appended in ascending order and nothing else. */
  lemma MountingMeaning(d: Deployment, l: seq<Secret>, stored: map<string, Fields>)
    ensures var o := MountingSorted(d, l, stored);
            && (o.ok <==> forall i | 0 <= i < |l| :: Mountable(l[i], stored))
            && (o.ok ==>
                  && o.d.volumes == d.volumes + FileVolumes(l)
                  && o.d.mounts == d.mounts + FileMounts(l)
                  && o.d.env == d.env + EnvVars(l, stored))
  {
    MountsIfMountable(d, l, stored);
    if MountingSorted(d, l, stored).ok {
      MountingAdds(d, l, stored);
    }
  }

  lemma OneMounts(d: Deployment, s: Secret, stored: map<string, Fields>)
    ensures var o := MountingOne(d, s, stored);
            && (o.ok <==> Mountable(s, stored))
            && (o.ok ==> o.d == Deployment(d.volumes + VolumesOf(s), d.mounts + MountsOf(s), d.env + VarsOf(s, stored)))
  {
    if IsEnv(s) && s.name in stored {
      var keys := AscendingKeys(stored[s.name]);
      KeysAreListed(stored[s.name]);
      KeysMount(d, s, keys, |stored[s.name]|);
      assert forall i | 0 <= i < |keys| :: keys[i] in keys;
      forall k | k in stored[s.name]
        ensures EnvName(s, k, |stored[s.name]|).Some?
            <==> IsNamed(s, k) || (|stored[s.name]| == 1 && "che.eclipse.org/env-name" in s.annotations)
      {
        NameIs(s, k, |stored[s.name]|);
        assert |stored[s.name]| != 0;
      }
    }
  }

  /** At the first secret that cannot be mounted mounting stops, and what was added before it stays. */
  lemma {:induction false} StopsAtFirst(d: Deployment, l: seq<Secret>, stored: map<string, Fields>, i: nat)
    requires i < |l| && !Mountable(l[i], stored) && forall j | 0 <= j < i :: Mountable(l[j], stored)
    ensures var o := MountingSorted(d, l, stored);
            && !o.ok
            && o.d.volumes == d.volumes + FileVolumes(l[..i])
            && o.d.mounts == d.mounts + FileMounts(l[..i])
            && d.env + EnvVars(l[..i], stored) <= o.d.env
    decreases |l|
  {
    OneMounts(d, l[0], stored);
    if i == 0 {
      if l[0].name in stored {
        KeysMount(d, l[0], AscendingKeys(stored[l[0].name]), |stored[l[0].name]|);
      }
    } else {
      var o := MountingOne(d, l[0], stored);
      assert l[1..][i - 1] == l[i] && forall j | 0 <= j < i - 1 :: l[1..][j] == l[j + 1];
      StopsAtFirst(o.d, l[1..], stored, i - 1);
      assert l[..i][1..] == l[1..][..i - 1];
      Associates(d.volumes, VolumesOf(l[0]), FileVolumes(l[..i][1..]));
      Associates(d.mounts, MountsOf(l[0]), FileMounts(l[..i][1..]));
      Associates(d.env, VarsOf(l[0], stored), EnvVars(l[..i][1..], stored));
    }
  }

  function CountWhere(l: seq<Secret>, p: Secret -> bool): nat {
    if l == [] then 0 else (if p(l[0]) then 1 else 0) + CountWhere(l[1..], p)
  }

  lemma {:induction false} OneVolumePerFile(l: seq<Secret>)
    ensures |FileVolumes(l)| == |FileMounts(l)| == CountWhere(l, IsFile)
  {
    if l != [] {
      OneVolumePerFile(l[1..]);
    }
  }

  // ---------- step by step ----------

  /** Insertion sort, item by item. */
  method Sort<T>(items: seq<T>, name: T -> string) returns (sorted: seq<T>)
    ensures sorted == SortedByName(items, name)
  {
    sorted := [];
    var i := |items|;
    while i > 0
      invariant 0 <= i <= |items|
      invariant sorted == SortedByName(items[i..], name)
    {
      i := i - 1;
      assert items[i..][1..] == items[i + 1..];
      sorted := InsertInto(sorted, items[i], name);
    }
  }

  method InsertInto<T>(s: seq<T>, x: T, name: T -> string) returns (r: seq<T>)
    ensures r == Insert(x, s, name)
  {
    var j := 0;
    while j < |s| && !Less(name(x), name(s[j]))
      invariant 0 <= j <= |s|
      invariant Insert(x, s, name) == s[..j] + Insert(x, s[j..], name)
    {
      assert s[j..][1..] == s[j + 1..];
      j := j + 1;
    }
    r := s[..j] + [x] + s[j..];
  }

  /** Collects the keys in whatever order the map is iterated, then sorts them. */
  method SortedKeys(m: Fields) returns (keys: seq<string>)
    ensures keys == AscendingKeys(m)
  {
    var listed: seq<string> := [];
    var rest := m.Keys;
    while rest != {}
      invariant rest <= m.Keys
      invariant multiset(listed) + multiset(rest) == multiset(m.Keys)
      decreases |rest|
    {
      var k :| k in rest;
      assert multiset(rest) == multiset(rest - {k}) + multiset{k};
      listed := listed + [k];
      rest := rest - {k};
    }
    keys := Sort(listed, ITSELF);
    SortForgetsOrder(Listing(m.Keys), listed, ITSELF);
  }

  /** Mounts every listed secret in place; on an error the deployment keeps what was appended before it. */
  class SpecDeployment {
    var d: Deployment

    constructor (d: Deployment)
      ensures this.d == d
    {
      this.d := d;
    }

    method MountEnv(s: Secret, data: Fields) returns (ok: bool)
      modifies this
      ensures Outcome(d, ok) == MountingKeys(old(d), s, AscendingKeys(data), |data|)
    {
      var keys := SortedKeys(data);
      for i := 0 to |keys|
        invariant MountingKeys(d, s, keys[i..], |data|) == MountingKeys(old(d), s, keys, |data|)
      {
        assert keys[i..][1..] == keys[i + 1..];
        var envName;
        if EnvNameAnnotation(keys[i]) in s.annotations {
          envName := s.annotations[EnvNameAnnotation(keys[i])];
        } else if |data| > 1 {
          return false;
        } else if ENV_NAME !in s.annotations {
          return false;
        } else {
          envName := s.annotations[ENV_NAME];
        }
        d := d.(env := d.env + [EnvVar(envName, s.name, keys[i])]);
      }
      return true;
    }

    method MountSecrets(listed: seq<Secret>, stored: map<string, Fields>) returns (ok: bool)
      modifies this
      ensures Outcome(d, ok) == Mounting(old(d), listed, stored)
    {
      var secrets := Sort(listed, SECRET_NAME);
      for i := 0 to |secrets|
        invariant MountingSorted(d, secrets[i..], stored) == MountingSorted(old(d), secrets, stored)
      {
        var secretObj := secrets[i];
        assert secrets[i..][1..] == secrets[i + 1..];
        var mountAs := Get(secretObj.annotations, MOUNT_AS);
        if mountAs == "file" {
          d := d.(volumes := d.volumes + [secretObj.name]);
          d := d.(mounts := d.mounts + [VolumeMount(secretObj.name, Get(secretObj.annotations, MOUNT_PATH))]);
        } else if mountAs == "env" {
          if secretObj.name !in stored {
            return false;
          }
          var mounted := MountEnv(secretObj, stored[secretObj.name]);
          if !mounted {
            return false;
          }
        }
      }
      return true;
    }
  }
}
