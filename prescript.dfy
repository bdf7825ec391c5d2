/**
 * The prescript plugin, `casaba/plugins/prescript_000.py`: the two step
 * functions that run before every other plugin.  `deploy_prep` rewrites
 * three value-store entries (cluster members, controller host, load-balancer
 * host); `preinstall_and_discover` installs the Puppet dependencies, creates
 * the run's directories and stores what `facter -p` reports under
 * `HOST_DETAILS`.  Shell commands go through a ScriptRunner; the output the
 * hosts print, the run's uuid and the all-in-one test are parameters.
 */
module Prescript {

  import opened Outcomes
  import opened PyStr
  import opened ODicts
  import opened Values
  import opened Keys
  import Registry

  // Constants of casaba/installer/basedefs.py.
  const CASABA_VAR_DIR := "/var/tmp/casaba"
  const PUPPET_DEPENDENCIES: seq<string> := ["puppet-agent", "tar", "nc"]
  const PUPPET_MODULES_DEPS: seq<string> := ["casaba-puppet-modules"]
  const DEVELOP_DEPS: seq<string> := ["git", "gcc", "python-devel", "openssl-devel", "python-pip", "libffi-devel"]

  const YUM_UTILS_LINE := "rpm -q --whatprovides yum-utils || yum install -y yum-utils"
  const YUM_PREFIX := "timeout 60 yum install -y "
  const RPM_PREFIX := "rpm -q --whatprovides "
  const MKDIR_PREFIX := "mkdir --mode 0700 "
  const FACTER_LINE := "facter -p"

  // ---------------------------------------------------------------- runner

  /** A command runner: the queue of shell lines still to run (`script`)
      and the batches it has executed so far, oldest first. */
  class ScriptRunner {
    var script: seq<string>
    var executed: seq<seq<string>>

    constructor ()
      ensures script == [] && executed == []
    {
      script := [];
      executed := [];
    }

    /** Queues one shell line. */
    method Append(cmd: string)
      modifies this
      ensures script == old(script) + [cmd]
      ensures executed == old(executed)
    {
      script := script + [cmd];
    }

    /** Empties the queue without running it. */
    method Clear()
      modifies this
      ensures script == [] && executed == old(executed)
    {
      script := [];
    }

    /** Runs the queued lines as one batch and returns what the hosts
        printed, which is given.  The queue itself is left as it is. */
    method Execute(stdout: string) returns (out: string)
      modifies this
      ensures executed == old(executed) + [old(script)]
      ensures script == old(script) && out == stdout
    {
      executed := executed + [script];
      out := stdout;
    }
  }

  /** All lines of a run of batches, in execution order. */
  function Flatten(batches: seq<seq<string>>): (r: seq<string>)
    ensures |batches| == 1 ==> r == batches[0]
  {
    if batches == [] then [] else batches[0] + Flatten(batches[1..])
  }

  // ---------------------------------------------------------------- deploy_prep

  /** `[f.strip() for f in s.split(',')]`: one member per comma-separated
      piece, empty pieces kept. */
  function Members(s: string): (r: seq<string>)
    ensures |r| == Count(s, ',') + 1
    ensures forall i :: 0 <= i < |r| ==> ',' !in r[i] && r[i] == Strip(Split(s, ',')[i])
  {
    var ps := Split(s, ',');
    seq(|ps|, i requires 0 <= i < |ps| => Strip(ps[i]))
  }

  /** The controller-host rule: a string becomes the list of its
      comma-separated pieces, unstripped; anything else stays as it is. */
  function HostRule(v: Value): (r: Value)
    ensures v.Str? ==> r.List? && |r.items| == Count(v.s, ',') + 1 && Join(r.items, [',']) == v.s
    ensures !v.Str? ==> r == v
  {
    if v.Str? then
      JoinSplit(v.s, ',');
      List(Split(v.s, ','))
    else v
  }

  /** What `deploy_prep` leaves in the value store, and the error it raises
      if any; the writes made before an error stay. */
  function Prepared(c: ODict<Value>): (r: (ODict<Value>, Option<Error>))
    requires c.Valid()
    ensures r.0.Valid()
  {
    match Lookup(c, CLUSTER_MEMBERS)
    case Err(e) => (c, Some(e))
    case Ok(m) =>
      if !m.Str? then (c, Some(AttributeError(CLUSTER_MEMBERS)))
      else
        var c1 := c.Put(CLUSTER_MEMBERS, List(Members(m.s)));
        match Lookup(c1, CONTROLLER_HOST)
        case Err(e) => (c1, Some(e))
        case Ok(h) =>
          var c2 := c1.Put(CONTROLLER_HOST, HostRule(h));
          match Lookup(c2, DOMAIN_NAME)
          case Err(e) => (c2, Some(e))
          case Ok(d) =>
            if d.Str? then (c2.Put(LB_HOST, Str("lb." + d.s)), None)
            else (c2, Some(TypeError(DOMAIN_NAME)))
  }

  /** `deploy_prep(config, messages)`: makes sure yum-utils is installed,
      then rewrites the three entries in place. */
  method DeployPrep(config: Values.Store) returns (batches: seq<seq<string>>, err: Option<Error>)
    requires config.Valid()
    modifies config
    ensures config.Valid()
    ensures batches == [[YUM_UTILS_LINE]]
    ensures (config.items, err) == Prepared(old(config.items))
  {
    var server := new ScriptRunner();
    server.Append(YUM_UTILS_LINE);
    assert server.script == [YUM_UTILS_LINE];
    var _ := server.Execute("");
    assert server.executed == [[YUM_UTILS_LINE]];
    batches := server.executed;

    if CLUSTER_MEMBERS !in config.items.vals {
      return batches, Some(KeyError(CLUSTER_MEMBERS));
    }
    var members := config.items.vals[CLUSTER_MEMBERS];
    if !members.Str? {
      return batches, Some(AttributeError(CLUSTER_MEMBERS));
    }
    config.Set(CLUSTER_MEMBERS, List(Members(members.s)));

    if CONTROLLER_HOST !in config.items.vals {
      return batches, Some(KeyError(CONTROLLER_HOST));
    }
    var host := config.items.vals[CONTROLLER_HOST];
    if host.Str? {
      config.Set(CONTROLLER_HOST, List(Split(host.s, ',')));
    }
    assert config.items == old(config.items).Put(CLUSTER_MEMBERS, List(Members(members.s))).Put(CONTROLLER_HOST, HostRule(host));

    if DOMAIN_NAME !in config.items.vals {
      return batches, Some(KeyError(DOMAIN_NAME));
    }
    var domain := config.items.vals[DOMAIN_NAME];
    if !domain.Str? {
      return batches, Some(TypeError(DOMAIN_NAME));
    }
    config.Set(LB_HOST, Str("lb." + domain.s));
    err := None;
  }

  // ---------------------------------------------------------------- command batches

  /** `os.path.join(a, b)` for two components. */
  function PathJoin(a: string, b: string): (r: string)
    ensures EndsWith(r, b)
    ensures (b == [] || b[0] != '/') ==> |a| <= |r| && r[..|a|] == a
    ensures b != [] && b[0] == '/' ==> r == b
  {
    if b != [] && b[0] == '/' then b
    else if a == [] || a[|a| - 1] == '/' then a + b
    else a + "/" + b
  }

  /** The run's own directory under CASABA_VAR_DIR. */
  function HostDir(runId: string): string {
    PathJoin(CASABA_VAR_DIR, runId)
  }

  /** The packages to install: the Puppet dependencies, plus the module and
      development packages on an all-in-one install. */
  function Deps(allInOne: bool): (r: seq<string>)
    ensures |PUPPET_DEPENDENCIES| <= |r| && r[..|PUPPET_DEPENDENCIES|] == PUPPET_DEPENDENCIES
    ensures allInOne <==> |r| > |PUPPET_DEPENDENCIES|
  {
    if allInOne then PUPPET_DEPENDENCIES + PUPPET_MODULES_DEPS + DEVELOP_DEPS
    else PUPPET_DEPENDENCIES
  }

  /** The installation batch: one yum line naming every package, then one
      `rpm -q` check per package, in the same order. */
  function RepoBatch(deps: seq<string>): (r: seq<string>)
    ensures |r| == |deps| + 1 && r[0] == YUM_PREFIX + Join(deps, " ")
    ensures forall i :: 0 <= i < |deps| ==> r[i + 1] == RPM_PREFIX + deps[i]
  {
    [YUM_PREFIX + Join(deps, " ")] + seq(|deps|, i requires 0 <= i < |deps| => RPM_PREFIX + deps[i])
  }

  /** The directory batch: the shared var directory, then the run's own
      directory and its `modules` and `resources` sub-directories, private
      to the owner. */
  function DirBatch(hostDir: string): seq<string> {
    ["mkdir -p " + CASABA_VAR_DIR,
     MKDIR_PREFIX + hostDir,
     MKDIR_PREFIX + PathJoin(hostDir, "modules"),
     MKDIR_PREFIX + PathJoin(hostDir, "resources")]
  }

  /** Every batch `preinstall_and_discover` executes, in order. */
  function Batches(repo: bool, allInOne: bool, hostDir: string): seq<seq<string>> {
    (if repo then [RepoBatch(Deps(allInOne))] else []) + [DirBatch(hostDir), [FACTER_LINE]]
  }

  // ---------------------------------------------------------------- facter output

  /** One line of `facter -p` output: split at the first `=>` into a key and
      a value, both stripped; None for a line without `=>`, which is skipped. */
  function FacterEntry(line: string): (r: Option<(string, string)>)
    ensures r.None? <==> forall i :: !OccursAt(line, "=>", i)
  {
    match SplitOnce(line, "=>")
    case None => None
    case Some((key, value)) => Some((Strip(key), Strip(value)))
  }

  /** The entry each line yields under `parse`, in order. */
  function Entries(parse: string -> Option<(string, string)>, lines: seq<string>): (r: seq<Option<(string, string)>>)
    ensures |r| == |lines|
    decreases |lines|
  {
    if lines == [] then []
    else Entries(parse, lines[..|lines| - 1]) + [parse(lines[|lines| - 1])]
  }

  /** The entry at position `i` is the one line `i` yields. */
  lemma {:induction false} EntriesAt(parse: string -> Option<(string, string)>, lines: seq<string>, i: nat)
    requires i < |lines|
    ensures Entries(parse, lines)[i] == parse(lines[i])
    decreases |lines|
  {
    if i < |lines| - 1 {
      var init := lines[..|lines| - 1];
      EntriesAt(parse, init, i);
      assert init[i] == lines[i];
    }
  }

  /** The details table after storing the entries in turn; a line without
      an entry is skipped. */
  function StoreEntries(d: ODict<string>, es: seq<Option<(string, string)>>): (r: ODict<string>)
    requires d.Valid()
    ensures r.Valid()
  {
    if es == [] then d
    else
      var r := StoreEntries(d, es[..|es| - 1]);
      match es[|es| - 1]
      case None => r
      case Some((k, v)) => r.Put(k, v)
  }

  /** The details table after the given lines of facter output. */
  function FacterDetails(d: ODict<string>, lines: seq<string>): ODict<string>
    requires d.Valid()
  {
    StoreEntries(d, Entries(FacterEntry, lines))
  }

  /** The table `preinstall_and_discover` stores under HOST_DETAILS. */
  function Discovered(hostDir: string, stdout: string): ODict<string> {
    FacterDetails(Empty<string>().Put("tmpdir", hostDir), Split(stdout, '\n'))
  }

  /** The parsing loop over the output of `facter -p`, line by line. */
  method ParseFacter(init: ODict<string>, stdout: string) returns (details: ODict<string>)
    requires init.Valid()
    ensures details == FacterDetails(init, Split(stdout, '\n'))
  {
    details := ParseLines(init, Split(stdout, '\n'));
  }

  /** The loop body: each line with a `=>` stores its stripped key and
      value; any other line is skipped. */
  method ParseLines(init: ODict<string>, lines: seq<string>) returns (details: ODict<string>)
    requires init.Valid()
    ensures details == FacterDetails(init, lines)
  {
    details := init;
    for i := 0 to |lines|
      invariant details.Valid() && details == StoreEntries(init, Entries(FacterEntry, lines[..i]))
    {
      assert lines[..i + 1][..i] == lines[..i];
      var entry := SplitOnce(lines[i], "=>");
      if entry.Some? {
        var (key, value) := entry.value;
        details := details.Put(Strip(key), Strip(value));
      }
    }
    assert lines[..|lines|] == lines;
  }

  /** `preinstall_and_discover(config, messages)`.  KeyError when
      CONFIG_REPO is missing; otherwise the batches run and the discovered
      details are stored under HOST_DETAILS. */
  method PreinstallAndDiscover(config: Values.Store, allInOne: bool, runId: string, facterStdout: string)
    returns (batches: seq<seq<string>>, err: Option<Error>)
    requires config.Valid()
    modifies config
    ensures config.Valid()
    ensures REPO !in old(config.items.vals) ==>
      err == Some(KeyError(REPO)) && batches == [] && config.items == old(config.items)
    ensures REPO in old(config.items.vals) ==>
      err == None &&
      batches == Batches(Truthy(old(config.items.vals[REPO])), allInOne, HostDir(runId)) &&
      config.items == old(config.items).Put(HOST_DETAILS, Table(Discovered(HostDir(runId), facterStdout)))
  {
    var details := Empty<string>();
    if REPO !in config.items.vals {
      return [], Some(KeyError(REPO));
    }
    var server := new ScriptRunner();
    var repo := Truthy(config.items.vals[REPO]);
    if repo {
      RunRepoBatch(server, Deps(allInOne));
    }
    ghost var repoBatches := server.executed;
    assert repoBatches == if repo then [RepoBatch(Deps(allInOne))] else [];
    var hostDir := PathJoin(CASABA_VAR_DIR, runId);
    RunDirBatch(server, hostDir);
    details := details.Put("tmpdir", hostDir);

    assert server.executed == repoBatches + [DirBatch(hostDir)];
    server.Clear();
    server.Append(FACTER_LINE);
    assert server.script == [FACTER_LINE];
    var stdout := server.Execute(facterStdout);
    assert server.executed == repoBatches + [DirBatch(hostDir)] + [[FACTER_LINE]];
    details := ParseFacter(details, stdout);
    server.Clear();
    config.Set(HOST_DETAILS, Table(details));
    batches := server.executed;
    assert batches == repoBatches + [DirBatch(hostDir)] + [[FACTER_LINE]];
    assert hostDir == HostDir(runId);
    BatchesShape(repo, allInOne, hostDir, repoBatches);
    err := None;
  }

  lemma BatchesShape(repo: bool, allInOne: bool, hostDir: string, repoBatches: seq<seq<string>>)
    requires repoBatches == if repo then [RepoBatch(Deps(allInOne))] else []
    ensures repoBatches + [DirBatch(hostDir)] + [[FACTER_LINE]] == Batches(repo, allInOne, hostDir)
  {
  }

  /** Step 2 of preinstall_and_discover: install the packages and check
      each one, then clear the queue. */
  method RunRepoBatch(server: ScriptRunner, deps: seq<string>)
    requires server.script == []
    modifies server
    ensures server.script == [] && server.executed == old(server.executed) + [RepoBatch(deps)]
  {
    server.Append(YUM_PREFIX + Join(deps, " "));
    for i := 0 to |deps|
      invariant server.script == RepoBatch(deps)[..i + 1]
      invariant server.executed == old(server.executed)
    {
      server.Append(RPM_PREFIX + deps[i]);
      assert RepoBatch(deps)[..i + 2] == RepoBatch(deps)[..i + 1] + [RPM_PREFIX + deps[i]];
    }
    assert RepoBatch(deps)[..|deps| + 1] == RepoBatch(deps);
    var _ := server.Execute("");
    server.Clear();
  }

  const SUBDIRS: seq<string> := ["modules", "resources"]

  /** Step 3: create the directories of the run, in one batch. */
  method RunDirBatch(server: ScriptRunner, hostDir: string)
    requires server.script == []
    modifies server
    ensures server.script == DirBatch(hostDir)
    ensures server.executed == old(server.executed) + [DirBatch(hostDir)]
  {
    server.Append("mkdir -p " + CASABA_VAR_DIR);
    server.Append(MKDIR_PREFIX + hostDir);
    DirBatchStart(hostDir);
    for i := 0 to |SUBDIRS|
      invariant server.script == DirBatch(hostDir)[..i + 2]
      invariant server.executed == old(server.executed)
    {
      server.Append(MKDIR_PREFIX + PathJoin(hostDir, SUBDIRS[i]));
      DirBatchStep(hostDir, i + 1);
    }
    assert DirBatch(hostDir)[..|SUBDIRS| + 2] == DirBatch(hostDir);
    var _ := server.Execute("");
  }

  lemma TakeTwo<T>(b: seq<T>)
    requires 2 <= |b|
    ensures b[..2] == [b[0], b[1]]
  {
  }

  lemma TakeOneMore<T>(b: seq<T>, n: nat)
    requires n < |b|
    ensures b[..n + 1] == b[..n] + [b[n]]
  {
  }

  lemma DirBatchStart(hostDir: string)
    ensures DirBatch(hostDir)[..2] == ["mkdir -p " + CASABA_VAR_DIR, MKDIR_PREFIX + hostDir]
  {
    TakeTwo(DirBatch(hostDir));
  }

  lemma DirBatchStep(hostDir: string, i: nat)
    requires 0 < i <= |SUBDIRS|
    ensures DirBatch(hostDir)[..i + 2] == DirBatch(hostDir)[..i + 1] + [MKDIR_PREFIX + PathJoin(hostDir, SUBDIRS[i - 1])]
  {
    var b := DirBatch(hostDir);
    TakeOneMore(b, i + 1);
    assert b[i + 1] == MKDIR_PREFIX + PathJoin(hostDir, SUBDIRS[i - 1]);
  }

  // ---------------------------------------------------------------- deploy_prep properties

  /** deploy_prep succeeds exactly when the cluster members and the domain
      name are strings and the controller host is present; otherwise it
      raises the error of the first entry that fails, in source order. */
  lemma PreparedErrors(c: ODict<Value>)
    requires c.Valid()
    ensures var err := Prepared(c).1;
      (err == None <==>
        CLUSTER_MEMBERS in c.vals && c.vals[CLUSTER_MEMBERS].Str? &&
        CONTROLLER_HOST in c.vals &&
        DOMAIN_NAME in c.vals && c.vals[DOMAIN_NAME].Str?) &&
      (CLUSTER_MEMBERS !in c.vals ==> Prepared(c) == (c, Some(KeyError(CLUSTER_MEMBERS)))) &&
      (CLUSTER_MEMBERS in c.vals && !c.vals[CLUSTER_MEMBERS].Str? ==>
        Prepared(c) == (c, Some(AttributeError(CLUSTER_MEMBERS)))) &&
      (CLUSTER_MEMBERS in c.vals && c.vals[CLUSTER_MEMBERS].Str? && CONTROLLER_HOST !in c.vals ==>
        err == Some(KeyError(CONTROLLER_HOST))) &&
      (CLUSTER_MEMBERS in c.vals && c.vals[CLUSTER_MEMBERS].Str? && CONTROLLER_HOST in c.vals ==>
        (DOMAIN_NAME !in c.vals ==> err == Some(KeyError(DOMAIN_NAME))) &&
        (DOMAIN_NAME in c.vals && !c.vals[DOMAIN_NAME].Str? ==> err == Some(TypeError(DOMAIN_NAME))))
  {
  }

  /** Whatever happens, deploy_prep writes no entry other than the three it
      rewrites, and existing entries keep their places. */
  lemma PreparedFrame(c: ODict<Value>)
    requires c.Valid()
    ensures var r := Prepared(c).0;
      KeepsOrder(c, r) &&
      forall k :: k != CLUSTER_MEMBERS && k != CONTROLLER_HOST && k != LB_HOST ==> r.Get(k) == c.Get(k)
  {
    var r := Prepared(c).0;
    if CLUSTER_MEMBERS in c.vals && c.vals[CLUSTER_MEMBERS].Str? {
      var c1 := c.Put(CLUSTER_MEMBERS, List(Members(c.vals[CLUSTER_MEMBERS].s)));
      PutKeepsOrder(c, CLUSTER_MEMBERS, List(Members(c.vals[CLUSTER_MEMBERS].s)));
      if CONTROLLER_HOST in c1.vals {
        var c2 := c1.Put(CONTROLLER_HOST, HostRule(c1.vals[CONTROLLER_HOST]));
        PutKeepsOrder(c1, CONTROLLER_HOST, HostRule(c1.vals[CONTROLLER_HOST]));
        KeepsOrderTrans(c, c1, c2);
        if DOMAIN_NAME in c2.vals && c2.vals[DOMAIN_NAME].Str? {
          var c3 := c2.Put(LB_HOST, Str("lb." + c2.vals[DOMAIN_NAME].s));
          PutKeepsOrder(c2, LB_HOST, Str("lb." + c2.vals[DOMAIN_NAME].s));
          KeepsOrderTrans(c, c2, c3);
          assert r == c3;
        } else {
          assert r == c2;
        }
      } else {
        assert r == c1;
      }
    } else {
      assert r == c;
    }
  }

  /** On success: the members are the stripped comma-separated pieces of the
      old string, the controller host follows HostRule, and the load
      balancer is `lb.` followed by the domain name. */
  lemma PreparedWrites(c: ODict<Value>)
    requires c.Valid() && Prepared(c).1 == None
    ensures CLUSTER_MEMBERS in c.vals && c.vals[CLUSTER_MEMBERS].Str?
    ensures CONTROLLER_HOST in c.vals && DOMAIN_NAME in c.vals && c.vals[DOMAIN_NAME].Str?
    ensures var r := Prepared(c).0;
      r.Get(CLUSTER_MEMBERS) == Some(List(Members(c.vals[CLUSTER_MEMBERS].s))) &&
      r.Get(CONTROLLER_HOST) == Some(HostRule(c.vals[CONTROLLER_HOST])) &&
      r.Get(LB_HOST) == Some(Str("lb." + c.vals[DOMAIN_NAME].s))
  {
    PreparedErrors(c);
  }

  /** The controller-host rule leaves a list alone, so applying it again is
      a no-op. */
  lemma HostRuleIdempotent(v: Value)
    ensures HostRule(HostRule(v)) == HostRule(v)
  {
  }

  /** deploy_prep cannot run twice: after a successful run the members are a
      list, and a second run raises AttributeError on them at once, without
      writing anything. */
  lemma PreparedTwice(c: ODict<Value>)
    requires c.Valid() && Prepared(c).1 == None
    ensures Prepared(Prepared(c).0) == (Prepared(c).0, Some(AttributeError(CLUSTER_MEMBERS)))
  {
    PreparedWrites(c);
  }

  /** After a successful run a string controller host has one entry per
      comma-separated piece, so the `len(...) == 3` test of the API plugin
      holds exactly when the string had two commas. */
  lemma ControllerCount(c: ODict<Value>)
    requires c.Valid() && Prepared(c).1 == None
    requires CONTROLLER_HOST in c.vals && c.vals[CONTROLLER_HOST].Str?
    ensures var r := Prepared(c).0;
      CONTROLLER_HOST in r.vals &&
      Len(r.vals[CONTROLLER_HOST], CONTROLLER_HOST) == Ok(Count(c.vals[CONTROLLER_HOST].s, ',') + 1) &&
      (Len(r.vals[CONTROLLER_HOST], CONTROLLER_HOST) == Ok(3) <==> Count(c.vals[CONTROLLER_HOST].s, ',') == 2)
  {
    var h := c.vals[CONTROLLER_HOST];
    var r := Prepared(c).0;
    assert r.Get(CONTROLLER_HOST) == Some(HostRule(h)) by {
      PreparedWrites(c);
    }
    var v := HostRule(h);
    assert v.List? && |v.items| == Count(h.s, ',') + 1;
    assert r.vals[CONTROLLER_HOST] == v;
  }

  // ---------------------------------------------------------------- facter properties

  /** A line splits at the FIRST `=>`: whenever `line` is `key + "=>" +
      value` and `key` holds no `=>` of the line, the entry is the stripped
      key and value. */
  lemma FacterEntryAt(line: string, key: string, value: string)
    requires key + "=>" + value == line
    requires forall i: nat :: i < |key| ==> !OccursAt(line, "=>", i)
    ensures FacterEntry(line) == Some((Strip(key), Strip(value)))
  {
    assert line[|key|..|key| + 2] == "=>";
    assert OccursAt(line, "=>", |key|);
    var split := SplitOnce(line, "=>");
    var (b, a) := split.value;
    assert b + "=>" + a == line;
    if |b| < |key| {
      assert line[|b|..|b| + 2] == "=>";
      assert OccursAt(line, "=>", |b|);
      assert false;
    }
    assert |b| == |key|;
    assert b == line[..|b|] == key;
    assert a == line[|b| + 2..] == value;
  }

  /** The lines of `a + b` yield the entries of `a`, then those of `b`. */
  lemma {:induction false} EntriesAppend(parse: string -> Option<(string, string)>, a: seq<string>, b: seq<string>)
    ensures Entries(parse, a + b) == Entries(parse, a) + Entries(parse, b)
    decreases |b|
  {
    if b == [] {
      assert a + b == a;
    } else {
      var b' := b[..|b| - 1];
      EntriesAppend(parse, a, b');
      assert (a + b)[..|a + b| - 1] == a + b';
      assert (a + b)[|a + b| - 1] == b[|b| - 1];
    }
  }

  /** Storing two runs of entries is storing the first, then the second. */
  lemma {:induction false} StoreAppend(d: ODict<string>, a: seq<Option<(string, string)>>, b: seq<Option<(string, string)>>)
    requires d.Valid()
    ensures StoreEntries(d, a + b) == StoreEntries(StoreEntries(d, a), b)
    decreases |b|
  {
    if b != [] {
      var b' := b[..|b| - 1];
      StoreAppend(d, a, b');
      assert (a + b)[..|a + b| - 1] == a + b';
      assert (a + b)[|a + b| - 1] == b[|b| - 1];
    } else {
      assert a + b == a;
    }
  }

  /** Parsing two runs of lines is parsing the first, then the second. */
  lemma FacterAppend(d: ODict<string>, a: seq<string>, b: seq<string>)
    requires d.Valid()
    ensures FacterDetails(d, a + b) == FacterDetails(FacterDetails(d, a), b)
  {
    EntriesAppend(FacterEntry, a, b);
    StoreAppend(d, Entries(FacterEntry, a), Entries(FacterEntry, b));
  }

  /** A line without `=>` can be dropped without changing the result. */
  lemma FacterSkip(d: ODict<string>, lines: seq<string>, i: nat)
    requires d.Valid() && i < |lines| && FacterEntry(lines[i]).None?
    ensures FacterDetails(d, lines[..i] + lines[i + 1..]) == FacterDetails(d, lines)
  {
    var pre, post := lines[..i], lines[i + 1..];
    assert lines == pre + ([lines[i]] + post);
    FacterAppend(d, pre, [lines[i]] + post);
    FacterAppend(FacterDetails(d, pre), [lines[i]], post);
    var none: seq<Option<(string, string)>> := [None];
    assert Entries(FacterEntry, [lines[i]]) == Entries(FacterEntry, []) + none by {
      assert [lines[i]][..0] == [];
    }
    assert StoreEntries(FacterDetails(d, pre), none) == FacterDetails(d, pre) by {
      assert none[..0] == [];
    }
    FacterAppend(d, pre, post);
  }

  /** The last entry that names a key decides its value. */
  lemma {:induction false} FacterLastWins(d: ODict<string>, es: seq<Option<(string, string)>>, i: nat, k: string, v: string)
    requires d.Valid() && i < |es| && es[i] == Some((k, v))
    requires forall j :: i < j < |es| ==> es[j].None? || es[j].value.0 != k
    ensures StoreEntries(d, es).Get(k) == Some(v)
    decreases |es|
  {
    if i < |es| - 1 {
      var init := es[..|es| - 1];
      assert init[i] == es[i];
      FacterLastWins(d, init, i, k, v);
    }
  }

  /** A key that no entry names keeps the value it had. */
  lemma {:induction false} FacterUntouched(d: ODict<string>, es: seq<Option<(string, string)>>, k: string)
    requires d.Valid()
    requires forall j :: 0 <= j < |es| ==> es[j].None? || es[j].value.0 != k
    ensures StoreEntries(d, es).Get(k) == d.Get(k)
    decreases |es|
  {
    if es != [] {
      FacterUntouched(d, es[..|es| - 1], k);
    }
  }

  /** Keys already in the table keep their places; new keys are appended. */
  lemma {:induction false} FacterKeepsOrder(d: ODict<string>, es: seq<Option<(string, string)>>)
    requires d.Valid()
    ensures KeepsOrder(d, StoreEntries(d, es))
    decreases |es|
  {
    if es != [] {
      FacterKeepsOrder(d, es[..|es| - 1]);
    }
  }

  /** A key stored before the facter entries stays first, and keeps its
      value unless some entry names it. */
  lemma FirstKeyStays(k: string, v: string, es: seq<Option<(string, string)>>)
    ensures var t := StoreEntries(Empty<string>().Put(k, v), es);
      t.keys != [] && t.keys[0] == k &&
      ((forall j :: 0 <= j < |es| ==> es[j].None? || es[j].value.0 != k) ==> t.Get(k) == Some(v))
  {
    var d := Empty<string>().Put(k, v);
    assert d.keys == [k];
    FacterKeepsOrder(d, es);
    if forall j :: 0 <= j < |es| ==> es[j].None? || es[j].value.0 != k {
      FacterUntouched(d, es, k);
    }
  }

  /** `tmpdir` is the first key of the details `preinstall_and_discover`
      stores, whatever the facter lines yield; it holds the run's directory
      unless some entry names `tmpdir`. */
  lemma TmpdirFirst(hostDir: string, es: seq<Option<(string, string)>>)
    ensures var t := StoreEntries(Empty<string>().Put("tmpdir", hostDir), es);
      t.keys != [] && t.keys[0] == "tmpdir" &&
      ((forall j :: 0 <= j < |es| ==> es[j].None? || es[j].value.0 != "tmpdir") ==> t.Get("tmpdir") == Some(hostDir))
  {
    FirstKeyStays("tmpdir", hostDir, es);
  }

  // ---------------------------------------------------------------- batch properties

  /** The yum line names exactly the packages, in order: splitting what
      follows the prefix at spaces gives them back. */
  lemma YumLineNamesDeps(allInOne: bool)
    ensures var line := RepoBatch(Deps(allInOne))[0];
      |YUM_PREFIX| <= |line| && line[..|YUM_PREFIX|] == YUM_PREFIX &&
      Split(line[|YUM_PREFIX|..], ' ') == Deps(allInOne)
  {
    var deps := Deps(allInOne);
    assert forall k :: 0 <= k < |deps| ==> ' ' !in deps[k];
    SplitJoin(deps, ' ');
    var line := RepoBatch(deps)[0];
    assert line[|YUM_PREFIX|..] == Join(deps, " ");
  }

  /** The run's directory is the uuid under CASABA_VAR_DIR, and the two
      sub-directories are inside it. */
  lemma HostDirLayout(runId: string)
    requires runId != [] && '/' !in runId
    ensures HostDir(runId) == CASABA_VAR_DIR + "/" + runId
    ensures PathJoin(HostDir(runId), "modules") == CASABA_VAR_DIR + "/" + runId + "/modules"
    ensures PathJoin(HostDir(runId), "resources") == CASABA_VAR_DIR + "/" + runId + "/resources"
  {
    assert runId[0] != '/';
    var h := HostDir(runId);
    assert h == CASABA_VAR_DIR + "/" + runId;
    assert h[|h| - 1] == runId[|runId| - 1] != '/';
  }

  /** Each batch is executed once and the queue is emptied in between, so
      no command runs twice in `preinstall_and_discover`. */
  lemma NoCommandTwice(repo: bool, allInOne: bool, hostDir: string)
    ensures NoDuplicates(Flatten(Batches(repo, allInOne, hostDir)))
  {
    var tail := DirBatch(hostDir) + [FACTER_LINE];
    FlattenBatches(repo, allInOne, hostDir);
    DirLinesDistinct(hostDir);
    if repo {
      var deps := Deps(allInOne);
      DepsDistinct(allInOne);
      RepoLinesDistinct(deps);
      RepoLineHeads(deps);
      DirLineHeads(hostDir);
      HeadsApart(RepoBatch(deps), tail);
    } else {
      assert [] + tail == tail;
    }
  }

  /** The installation lines start with `t` or `r`, the directory and
      facter lines with `m` or `f`, so the two batches share no line. */
  lemma HeadsApart(a: seq<string>, b: seq<string>)
    requires NoDuplicates(a) && NoDuplicates(b)
    requires forall x :: x in a ==> x != [] && (x[0] == 't' || x[0] == 'r')
    requires forall y :: y in b ==> y != [] && (y[0] == 'm' || y[0] == 'f')
    ensures NoDuplicates(a + b)
  {
    forall x, y | x in a && y in b ensures x != y {
      assert x[0] != y[0];
    }
    DistinctConcat(a, b);
  }

  lemma RepoLineHeads(deps: seq<string>)
    ensures forall x :: x in RepoBatch(deps) ==> x != [] && (x[0] == 't' || x[0] == 'r')
  {
    var r := RepoBatch(deps);
    forall i | 0 <= i < |r| ensures r[i] != [] && (r[i][0] == 't' || r[i][0] == 'r') {
      if i == 0 {
        assert r[i][0] == YUM_PREFIX[0];
      } else {
        assert r[i][0] == RPM_PREFIX[0];
      }
    }
  }

  lemma DirLineHeads(hostDir: string)
    ensures forall y :: y in DirBatch(hostDir) + [FACTER_LINE] ==> y != [] && (y[0] == 'm' || y[0] == 'f')
  {
    var l0 := "mkdir -p " + CASABA_VAR_DIR;
    var l1 := MKDIR_PREFIX + hostDir;
    var l2 := MKDIR_PREFIX + PathJoin(hostDir, "modules");
    var l3 := MKDIR_PREFIX + PathJoin(hostDir, "resources");
    assert DirBatch(hostDir) + [FACTER_LINE] == [l0, l1, l2, l3, FACTER_LINE];
    assert l0[0] == l1[0] == l2[0] == l3[0] == 'm' && FACTER_LINE[0] == 'f';
  }

  lemma FlattenBatches(repo: bool, allInOne: bool, hostDir: string)
    ensures Flatten(Batches(repo, allInOne, hostDir)) ==
      (if repo then RepoBatch(Deps(allInOne)) else []) + (DirBatch(hostDir) + [FACTER_LINE])
  {
    var tail := [DirBatch(hostDir), [FACTER_LINE]];
    assert Flatten(tail) == DirBatch(hostDir) + [FACTER_LINE] by {
      assert tail[1..] == [[FACTER_LINE]];
    }
    if repo {
      var bs := [RepoBatch(Deps(allInOne))] + tail;
      assert bs[1..] == tail;
    } else {
      assert [] + tail == tail;
    }
  }

  /** Neither package list names a package twice. */
  lemma DepsDistinct(allInOne: bool)
    ensures NoDuplicates(Deps(allInOne))
  {
  }

  /** Distinct packages give distinct lines: one yum line, then one
      `rpm -q` line per package. */
  lemma RepoLinesDistinct(deps: seq<string>)
    requires NoDuplicates(deps)
    ensures NoDuplicates(RepoBatch(deps))
  {
    var r := RepoBatch(deps);
    forall i, j | 0 <= i < j < |r| ensures r[i] != r[j] {
      if i == 0 {
        assert r[i][0] == 't' && r[j][0] == 'r';
      } else {
        assert r[i][|RPM_PREFIX|..] == deps[i - 1];
        assert r[j][|RPM_PREFIX|..] == deps[j - 1];
      }
    }
  }

  lemma DirLinesDistinct(hostDir: string)
    ensures NoDuplicates(DirBatch(hostDir) + [FACTER_LINE])
  {
    var l0 := "mkdir -p " + CASABA_VAR_DIR;
    var l1 := MKDIR_PREFIX + hostDir;
    var l2 := MKDIR_PREFIX + PathJoin(hostDir, "modules");
    var l3 := MKDIR_PREFIX + PathJoin(hostDir, "resources");
    assert DirBatch(hostDir) + [FACTER_LINE] == [l0, l1, l2, l3, FACTER_LINE];
    var e := if hostDir == [] || hostDir[|hostDir| - 1] == '/' then 0 else 1;
    assert |l2| == |l1| + e + 7 && |l3| == |l1| + e + 9;
    assert l0[7] == 'p';
    assert l1[7] == l2[7] == l3[7] == MKDIR_PREFIX[7] == '-';
    assert l0[0] == l1[0] == l2[0] == l3[0] == 'm' && FACTER_LINE[0] == 'f';
  }

  // ---------------------------------------------------------------- registration

  /** The sequence `initSequences` registers. */
  const PRESCRIPT_SEQUENCE := Registry.Sequence(
    "Running pre configuration scripts", [], [],
    [Registry.Step("Preparing Global Parameters Settings", ["deploy_prep"]),
     Registry.Step("Preparing Operating System settings", ["preinstall_and_discover"])])

  /** The prescript sequence has no conditions, and runs deploy_prep and
      then preinstall_and_discover. */
  lemma PrescriptSequenceOrder()
    ensures PRESCRIPT_SEQUENCE.conditions == [] && PRESCRIPT_SEQUENCE.conditionMatches == []
    ensures Registry.CallOrder(PRESCRIPT_SEQUENCE.steps) == ["deploy_prep", "preinstall_and_discover"]
  {
    var steps := PRESCRIPT_SEQUENCE.steps;
    assert steps[1..] == [steps[1]];
    assert steps[1..][1..] == [];
  }
}
