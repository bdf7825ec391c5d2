/**
 * `gethostlist` of `casaba/modules/ospluginutils.py`: the hosts named by the
 * value store, read off every entry whose key ends in `_HOST` (one host,
 * cut at the first `/`) or `_HOSTS` (a comma-separated list, each piece
 * stripped and cut at the first `/`), without duplicates or empty names, in
 * the order they first appear.
 */
module HostList {

  import opened Outcomes
  import opened PyStr
  import opened ODicts
  import opened Values

  /** The two key suffixes never apply to the same key, so the source's two
      independent `if`s behave as an `if`/`else if`. */
  lemma SuffixesExclusive(key: string)
    ensures !(EndsWith(key, "_HOST") && EndsWith(key, "_HOSTS"))
  {
    assert EndsWith(key, "_HOST") ==> key[|key| - 1] == key[|key| - 5..][4] == 'T';
    assert EndsWith(key, "_HOSTS") ==> key[|key| - 1] == key[|key| - 6..][5] == 'S';
  }

  /** The pieces of a `_HOSTS` value: each comma-separated piece, stripped,
      up to its first `/`. */
  function HostPieces(ps: seq<string>): (r: seq<string>)
    ensures |r| == |ps|
    ensures forall i :: 0 <= i < |ps| ==> r[i] == FirstPiece(Strip(ps[i]), '/')
  {
    seq(|ps|, i requires 0 <= i < |ps| => FirstPiece(Strip(ps[i]), '/'))
  }

  /** The host names one entry offers, duplicates and empty names included;
      AttributeError when a host key holds something other than a string. */
  function Candidates(key: string, v: Value): (r: Result<seq<string>>)
    ensures r.Err? <==> (EndsWith(key, "_HOST") || EndsWith(key, "_HOSTS")) && !v.Str?
    ensures r.Err? ==> r.error == AttributeError(key)
    ensures !EndsWith(key, "_HOST") && !EndsWith(key, "_HOSTS") ==> r == Ok([])
    ensures r.Ok? ==> forall i :: 0 <= i < |r.value| ==> '/' !in r.value[i]
  {
    if EndsWith(key, "_HOST") then
      if v.Str? then Ok([FirstPiece(v.s, '/')]) else Err(AttributeError(key))
    else if EndsWith(key, "_HOSTS") then
      if v.Str? then Ok(HostPieces(Split(v.s, ','))) else Err(AttributeError(key))
    else
      Ok([])
  }

  /** The candidates of the first `n` entries in iteration order, or the
      error of the first entry that raises. */
  function CandidatesUpTo(conf: ODict<Value>, n: nat): (r: Result<seq<string>>)
    requires conf.Valid() && n <= |conf.keys|
    ensures r.Ok? ==> forall i :: 0 <= i < |r.value| ==> '/' !in r.value[i]
  {
    if n == 0 then Ok([])
    else
      match CandidatesUpTo(conf, n - 1)
      case Err(e) => Err(e)
      case Ok(c) =>
        var key := conf.keys[n - 1];
        match Candidates(key, conf.vals[key])
        case Err(e) => Err(e)
        case Ok(c') => Ok(c + c')
  }

  /** `if h and h not in hosts: hosts.append(h)` */
  function AddHost(hosts: seq<string>, h: string): seq<string> {
    if h != "" && h !in hosts then hosts + [h] else hosts
  }

  /** Offering each of `cands` in turn to `AddHost`. */
  function Collect(hosts: seq<string>, cands: seq<string>): seq<string> {
    if cands == [] then hosts
    else AddHost(Collect(hosts, cands[..|cands| - 1]), cands[|cands| - 1])
  }

  /** What `gethostlist(CONF)` returns, or the error it raises. */
  function HostList(conf: ODict<Value>): Result<seq<string>>
    requires conf.Valid()
  {
    match CandidatesUpTo(conf, |conf.keys|)
    case Err(e) => Err(e)
    case Ok(c) => Ok(Collect([], c))
  }

  /** Index of the first occurrence of `x` in `s`. */
  function FirstIndex(s: seq<string>, x: string): (r: nat)
    requires x in s
    ensures r < |s| && s[r] == x && forall i :: 0 <= i < r ==> s[i] != x
  {
    if s[0] == x then 0 else 1 + FirstIndex(s[1..], x)
  }

  // ---------------------------------------------------------------- the loop

  /** `gethostlist(CONF)`, walking the entries in iteration order. */
  method GetHostList(conf: ODict<Value>) returns (r: Result<seq<string>>)
    requires conf.Valid()
    ensures r == HostList(conf)
    ensures r.Ok? ==>
      NoDuplicates(r.value) &&
      (forall i :: 0 <= i < |r.value| ==> r.value[i] != "" && '/' !in r.value[i])
  {
    var hosts: seq<string> := [];
    ghost var seen: seq<string> := [];
    for i := 0 to |conf.keys|
      invariant CandidatesUpTo(conf, i) == Ok(seen)
      invariant hosts == Collect([], seen)
    {
      var key := conf.keys[i];
      var value := conf.vals[key];
      ghost var offered := Candidates(key, value);
      ghost var seen0 := seen;
      assert CandidatesUpTo(conf, i + 1) == if offered.Err? then offered else Ok(seen + offered.value);
      SuffixesExclusive(key);
      if EndsWith(key, "_HOST") {
        if !value.Str? {
          ErrorStops(conf, i + 1, |conf.keys|);
          return Err(AttributeError(key));
        }
        var h := FirstPiece(value.s, '/');
        if h != "" && h !in hosts {
          hosts := hosts + [h];
        }
        CollectSnoc(seen, h);
        assert offered == Ok([h]);
        seen := seen + [h];
      }
      if EndsWith(key, "_HOSTS") {
        if !value.Str? {
          ErrorStops(conf, i + 1, |conf.keys|);
          return Err(AttributeError(key));
        }
        var pieces := Split(value.s, ',');
        hosts := AddPieces(hosts, seen, pieces);
        assert offered == Ok(HostPieces(pieces));
        seen := seen + HostPieces(pieces);
      }
      if !EndsWith(key, "_HOST") && !EndsWith(key, "_HOSTS") {
        assert offered == Ok([]) && seen0 + [] == seen0;
      }
      assert offered.Ok? && seen == seen0 + offered.value;
    }
    r := Ok(hosts);
    HostListShape(conf);
  }

  /** The inner loop over the comma-separated pieces of a `_HOSTS` value. */
  method AddPieces(hosts0: seq<string>, ghost seen: seq<string>, pieces: seq<string>) returns (hosts: seq<string>)
    requires hosts0 == Collect([], seen)
    ensures hosts == Collect([], seen + HostPieces(pieces))
  {
    hosts := hosts0;
    ghost var cands := HostPieces(pieces);
    assert seen + cands[..0] == seen;
    for j := 0 to |pieces|
      invariant hosts == Collect([], seen + cands[..j])
    {
      var host := Strip(pieces[j]);
      host := FirstPiece(host, '/');
      if host != "" && host !in hosts {
        hosts := hosts + [host];
      }
      CollectSnoc(seen + cands[..j], host);
      assert host == cands[j];
      PrefixSnoc(seen, cands, j);
    }
    assert cands[..|pieces|] == cands;
  }

  lemma PrefixSnoc(seen: seq<string>, cands: seq<string>, j: nat)
    requires j < |cands|
    ensures seen + cands[..j] + [cands[j]] == seen + cands[..j + 1]
  {
    assert cands[..j + 1] == cands[..j] + [cands[j]];
  }

  lemma CollectSnoc(seen: seq<string>, h: string)
    ensures Collect([], seen + [h]) == AddHost(Collect([], seen), h)
  {
    assert (seen + [h])[..|seen|] == seen;
  }

  /** Once an entry raises, the walk raises the same error. */
  lemma {:induction false} ErrorStops(conf: ODict<Value>, i: nat, n: nat)
    requires conf.Valid() && 0 < i <= n <= |conf.keys|
    requires CandidatesUpTo(conf, i).Err?
    ensures CandidatesUpTo(conf, n) == CandidatesUpTo(conf, i)
    decreases n - i
  {
    if i < n {
      ErrorStops(conf, i, n - 1);
    }
  }

  // ---------------------------------------------------------------- properties

  /** Collect adds exactly the non-empty candidates not already present. */
  lemma {:induction false} CollectMembers(hosts: seq<string>, cands: seq<string>, x: string)
    ensures x in Collect(hosts, cands) <==> x in hosts || (x in cands && x != "")
  {
    if cands != [] {
      var init := cands[..|cands| - 1];
      CollectMembers(hosts, init, x);
      assert cands == init + [cands[|cands| - 1]];
    }
  }

  /** Collect keeps a duplicate-free list duplicate-free, and never adds "". */
  lemma {:induction false} CollectNoDuplicates(hosts: seq<string>, cands: seq<string>)
    requires NoDuplicates(hosts) && "" !in hosts
    ensures NoDuplicates(Collect(hosts, cands)) && "" !in Collect(hosts, cands)
  {
    if cands != [] {
      CollectNoDuplicates(hosts, cands[..|cands| - 1]);
    }
  }

  /** The index a name is first found at is the only index holding it
      with no earlier occurrence. */
  lemma FirstIndexUnique(s: seq<string>, x: string, k: nat)
    requires k < |s| && s[k] == x && forall i :: 0 <= i < k ==> s[i] != x
    ensures FirstIndex(s, x) == k
  {
  }

  /** Appending a name does not move the first occurrence of another one
      already present. */
  lemma FirstIndexSnoc(init: seq<string>, x: string, y: string)
    requires y in init
    ensures FirstIndex(init + [x], y) == FirstIndex(init, y)
  {
    var k := FirstIndex(init, y);
    var s := init + [x];
    forall i | 0 <= i <= k ensures s[i] == init[i] {
    }
    FirstIndexUnique(s, y, k);
  }

  /** A name appended to a list without it is first found at the end. */
  lemma FirstIndexLast(init: seq<string>, x: string)
    requires x !in init
    ensures FirstIndex(init + [x], x) == |init|
  {
    var s := init + [x];
    forall i | 0 <= i < |init| ensures s[i] != x {
      assert s[i] == init[i];
    }
    FirstIndexUnique(s, x, |init|);
  }

  /** Every name of `r` is a candidate, and `r` lists them in the order of
      their first occurrence in `cands`. */
  ghost predicate InOrder(cands: seq<string>, r: seq<string>) {
    (forall x :: x in r ==> x in cands) &&
    forall i, j :: 0 <= i < j < |r| ==> FirstIndex(cands, r[i]) < FirstIndex(cands, r[j])
  }

  /** A new candidate at the end does not disturb an existing order. */
  lemma InOrderSnoc(init: seq<string>, x: string, r0: seq<string>)
    requires InOrder(init, r0)
    ensures InOrder(init + [x], r0)
  {
    forall i | 0 <= i < |r0| ensures FirstIndex(init + [x], r0[i]) == FirstIndex(init, r0[i]) {
      assert r0[i] in r0;
      FirstIndexSnoc(init, x, r0[i]);
    }
  }

  /** A new name taken from the end of the candidates goes after the rest. */
  lemma InOrderLast(init: seq<string>, x: string, r0: seq<string>)
    requires InOrder(init, r0) && x !in init
    ensures InOrder(init + [x], r0 + [x])
  {
    InOrderSnoc(init, x, r0);
    FirstIndexLast(init, x);
    var cands := init + [x];
    var r := r0 + [x];
    forall i, j | 0 <= i < j < |r| ensures FirstIndex(cands, r[i]) < FirstIndex(cands, r[j]) {
      assert r[i] == r0[i] && r0[i] in r0;
      if j < |r0| {
        assert r[j] == r0[j];
      }
    }
  }

  /** Hosts come out in the order of their first occurrence among the
      candidates. */
  lemma {:induction false} CollectOrder(cands: seq<string>)
    ensures InOrder(cands, Collect([], cands))
  {
    if cands != [] {
      var init := cands[..|cands| - 1];
      var x := cands[|cands| - 1];
      assert cands == init + [x];
      CollectOrder(init);
      var r0 := Collect([], init);
      if x != "" && x !in r0 {
        CollectMembers([], init, x);
        assert Collect([], cands) == r0 + [x];
        InOrderLast(init, x, r0);
      } else {
        assert Collect([], cands) == r0;
        InOrderSnoc(init, x, r0);
      }
    }
  }

  /** The result of gethostlist: no duplicates, no empty names, no `/`. */
  lemma HostListShape(conf: ODict<Value>)
    requires conf.Valid()
    ensures HostList(conf).Ok? ==>
      var r := HostList(conf).value;
      NoDuplicates(r) && forall i :: 0 <= i < |r| ==> r[i] != "" && '/' !in r[i]
  {
    if HostList(conf).Ok? {
      var c := CandidatesUpTo(conf, |conf.keys|).value;
      var r := Collect([], c);
      assert HostList(conf).value == r;
      CollectNoDuplicates([], c);
      CollectOrder(c);
      forall i | 0 <= i < |r| ensures '/' !in r[i] {
        assert r[i] in c;
        assert c[FirstIndex(c, r[i])] == r[i];
      }
    }
  }

  /** gethostlist lists exactly the non-empty names the host entries offer,
      each at the place of its first occurrence. */
  lemma HostListContents(conf: ODict<Value>)
    requires conf.Valid()
    requires CandidatesUpTo(conf, |conf.keys|).Ok?
    ensures var c := CandidatesUpTo(conf, |conf.keys|).value;
      var r := HostList(conf).value;
      (forall x :: x in r <==> x in c && x != "") &&
      (forall i, j :: 0 <= i < j < |r| ==> FirstIndex(c, r[i]) < FirstIndex(c, r[j]))
  {
    var c := CandidatesUpTo(conf, |conf.keys|).value;
    var r := HostList(conf).value;
    assert r == Collect([], c);
    forall x ensures x in r <==> x in c && x != "" {
      CollectMembers([], c, x);
    }
    CollectOrder(c);
    forall i, j | 0 <= i < j < |r| ensures FirstIndex(c, r[i]) < FirstIndex(c, r[j]) {
    }
  }

  /** Entries whose key ends in neither `_HOST` nor `_HOSTS` contribute
      nothing: setting one, new or existing, leaves the host list as it was. */
  lemma OtherKeysIgnored(conf: ODict<Value>, k: string, v: Value)
    requires conf.Valid()
    requires !EndsWith(k, "_HOST") && !EndsWith(k, "_HOSTS")
    ensures HostList(conf.Put(k, v)) == HostList(conf)
  {
    var conf' := conf.Put(k, v);
    var n := |conf.keys|;
    assert CandidatesUpTo(conf', n) == CandidatesUpTo(conf, n) by {
      UpToSame(conf, conf', k, n);
    }
    if k !in conf.vals {
      LastIgnored(conf', n, k);
    }
  }

  /** An entry whose key is no host key adds no candidates. */
  lemma LastIgnored(conf: ODict<Value>, n: nat, k: string)
    requires conf.Valid() && n + 1 == |conf.keys| && conf.keys[n] == k
    requires !EndsWith(k, "_HOST") && !EndsWith(k, "_HOSTS")
    ensures CandidatesUpTo(conf, n + 1) == CandidatesUpTo(conf, n)
  {
    if CandidatesUpTo(conf, n).Ok? {
      assert CandidatesUpTo(conf, n).value + [] == CandidatesUpTo(conf, n).value;
    }
  }

  lemma {:induction false} UpToSame(conf: ODict<Value>, conf': ODict<Value>, k: string, n: nat)
    requires conf.Valid() && conf'.Valid()
    requires n <= |conf.keys| <= |conf'.keys| && conf'.keys[..|conf.keys|] == conf.keys
    requires !EndsWith(k, "_HOST") && !EndsWith(k, "_HOSTS")
    requires forall k' :: k' != k && k' in conf.vals ==> k' in conf'.vals && conf'.vals[k'] == conf.vals[k']
    ensures CandidatesUpTo(conf', n) == CandidatesUpTo(conf, n)
  {
    if n > 0 {
      UpToSame(conf, conf', k, n - 1);
      var key := conf.keys[n - 1];
      assert conf'.keys[n - 1] == key && key in conf.vals;
      assert Candidates(key, conf'.vals[key]) == Candidates(key, conf.vals[key]) by {
        if key == k {
          assert Candidates(key, conf.vals[key]) == Ok([]);
        }
      }
    }
  }

  /** Worked instance: a `_HOST` value is cut at `/` but not stripped. */
  lemma HostExample()
    ensures Candidates("CONFIG_CONTROLLER_HOST", Str(" db/24")) == Ok([" db"])
  {
    assert EndsWith("CONFIG_CONTROLLER_HOST", "_HOST");
    assert FirstPiece(" db/24", '/') == " db";
  }

  /** Worked instance: a `_HOSTS` value is split at commas and each piece is
      stripped and cut at `/`. */
  lemma HostsExample()
    ensures Candidates("CONFIG_COMPUTE_HOSTS", Str("a/24,b")) == Ok(["a", "b"])
  {
    assert !EndsWith("CONFIG_COMPUTE_HOSTS", "_HOST");
    assert EndsWith("CONFIG_COMPUTE_HOSTS", "_HOSTS");
    SplitExample();
    PiecesExample();
  }

  lemma SplitExample()
    ensures Split("a/24,b", ',') == ["a/24", "b"]
  {
    assert Join(["a/24", "b"], [',']) == "a/24,b";
    SplitJoin(["a/24", "b"], ',');
  }

  lemma PiecesExample()
    ensures HostPieces(["a/24", "b"]) == ["a", "b"]
  {
    PlainPiece("a/24");
    PlainPiece("b");
    assert FirstPiece("a/24", '/') == "a";
    assert FirstPiece("b", '/') == "b";
  }

  /** A piece without surrounding whitespace is only cut at `/`. */
  lemma PlainPiece(p: string)
    requires p != [] && !IsSpace(p[0]) && !IsSpace(p[|p| - 1])
    ensures FirstPiece(Strip(p), '/') == FirstPiece(p, '/')
  {
    StripNoop(p);
  }
}
