/**
 * The manifest aggregator of `casaba/modules/ospluginutils.py`: the
 * `ManifestFiles` accumulator (an ordered list of `(filename, marker)` pairs
 * and a `filename -> body` map), the module-level `appendManifestFile`
 * helper, and the `.pp` suffix rule of `getManifestTemplate`.
 */
module Manifests {

  import opened PyStr

  /** One file-list entry: `(filename, marker)`.  The marker tells which
      manifests may be applied in parallel on different hosts; the
      aggregator only records it. */
  type Entry = (string, string)

  function Names(fl: seq<Entry>): (ns: seq<string>)
    ensures |ns| == |fl| && forall i :: 0 <= i < |fl| ==> ns[i] == fl[i].0
  {
    seq(|fl|, i requires 0 <= i < |fl| => fl[i].0)
  }

  /** The abstract state of a ManifestFiles object. */
  datatype Manifest = Manifest(filelist: seq<Entry>, data: map<string, string>)

  const Empty := Manifest([], map[])

  /** Each file is listed once, and exactly the listed files have a body. */
  ghost predicate WellFormed(m: Manifest) {
    (forall i, j :: 0 <= i < j < |m.filelist| ==> m.filelist[i].0 != m.filelist[j].0) &&
    (forall f :: f in m.data <==> f in Names(m.filelist))
  }

  /** `self.data.get(f, '')` */
  function Body(m: Manifest, f: string): string {
    if f in m.data then m.data[f] else ""
  }

  /** The file list after recording `(f, marker)` once. */
  function Record(fl: seq<Entry>, f: string, marker: string): (r: seq<Entry>)
    ensures f in Names(fl) ==> r == fl
    ensures f !in Names(fl) ==> r == fl + [(f, marker)]
    ensures Names(r) == if f in Names(fl) then Names(fl) else Names(fl) + [f]
  {
    if f in Names(fl) then fl else
      assert Names(fl + [(f, marker)]) == Names(fl) + [f];
      fl + [(f, marker)]
  }

  /** The state after `addFile(f, marker, body)`. */
  function Added(m: Manifest, f: string, marker: string, body: string): (r: Manifest)
    ensures Body(r, f) == Body(m, f) + "\n" + body
    ensures forall g :: g != f ==> (g in r.data <==> g in m.data) && Body(r, g) == Body(m, g)
    ensures WellFormed(m) ==> WellFormed(r)
  {
    Manifest(Record(m.filelist, f, marker), m.data[f := Body(m, f) + "\n" + body])
  }

  /** The state after `prependFile(f, marker, body)`. */
  function Prepended(m: Manifest, f: string, marker: string, body: string): (r: Manifest)
    ensures Body(r, f) == body + "\n" + Body(m, f)
    ensures forall g :: g != f ==> (g in r.data <==> g in m.data) && Body(r, g) == Body(m, g)
    ensures WellFormed(m) ==> WellFormed(r)
  {
    Manifest(Record(m.filelist, f, marker), m.data[f := body + "\n" + Body(m, f)])
  }

  /** `manifestfiles`, the one aggregator every plugin appends to. */
  class ManifestFiles {
    var filelist: seq<Entry>
    var data: map<string, string>

    ghost predicate Valid()
      reads this
    {
      WellFormed(State())
    }

    ghost function State(): Manifest
      reads this
    {
      Manifest(filelist, data)
    }

    constructor ()
      ensures Valid() && State() == Empty
    {
      filelist := [];
      data := map[];
    }

    /** Appends `body` (after a newline) to the file's text, and lists the
        file with `marker` unless it is already listed. */
    method AddFile(filename: string, marker: string, body: string := "")
      modifies this
      ensures State() == Added(old(State()), filename, marker, body)
      ensures old(Valid()) ==> Valid()
    {
      data := data[filename := (if filename in data then data[filename] else "") + "\n" + body];
      for i := 0 to |filelist|
        invariant forall j :: 0 <= j < i ==> filelist[j].0 != filename
      {
        if filelist[i].0 == filename {
          return;
        }
      }
      filelist := filelist + [(filename, marker)];
    }

    /** Puts `body` (and a newline) in front of the file's text, and lists the
        file with `marker` unless it is already listed. */
    method PrependFile(filename: string, marker: string, body: string := "")
      modifies this
      ensures State() == Prepended(old(State()), filename, marker, body)
      ensures old(Valid()) ==> Valid()
    {
      data := data[filename := body + "\n" + (if filename in data then data[filename] else "")];
      for i := 0 to |filelist|
        invariant forall j :: 0 <= j < i ==> filelist[j].0 != filename
      {
        if filelist[i].0 == filename {
          return;
        }
      }
      filelist := filelist + [(filename, marker)];
    }

    /** A fresh copy of the file list, in first-seen order. */
    method GetFiles() returns (files: seq<Entry>)
      ensures files == filelist
      ensures Valid() ==> forall i, j :: 0 <= i < j < |files| ==> files[i].0 != files[j].0
    {
      files := [];
      for i := 0 to |filelist|
        invariant files == filelist[..i]
      {
        files := files + [filelist[i]];
      }
    }
  }

  /** `appendManifestFile(name, data, marker='')`: `addFile` with the body
      and marker arguments swapped. */
  method AppendManifestFile(files: ManifestFiles, manifestName: string, body: string, marker: string := "")
    modifies files
    ensures files.State() == Added(old(files.State()), manifestName, marker, body)
    ensures old(files.Valid()) ==> files.Valid()
  {
    files.AddFile(manifestName, marker, body);
  }

  /** The file name `getManifestTemplate` opens: `.pp` is appended unless the
      name already ends with it. */
  function TemplateFile(name: string): (r: string)
    ensures EndsWith(r, ".pp")
    ensures |name| <= |r| && r[..|name|] == name
    ensures EndsWith(name, ".pp") <==> r == name
    ensures !EndsWith(name, ".pp") ==> |r| == |name| + 3
  {
    if EndsWith(name, ".pp") then name else name + ".pp"
  }

  // ---------------------------------------------------------------- properties

  /** Normalising a template name twice changes nothing more. */
  lemma TemplateFileIdempotent(name: string)
    ensures TemplateFile(TemplateFile(name)) == TemplateFile(name)
  {
  }

  /** The first fragment of a new file is preceded by a newline. */
  lemma FirstAdd(f: string, marker: string, a: string)
    ensures Added(Empty, f, marker, a).data == map[f := "\n" + a]
    ensures Added(Empty, f, marker, a).filelist == [(f, marker)]
  {
    assert Body(Empty, f) == "";
    assert "" + "\n" + a == "\n" + a;
  }

  /** Adding twice to one file keeps a single list entry, with the first
      marker, and joins the fragments in call order. */
  lemma AddTwice(m: Manifest, f: string, marker1: string, marker2: string, a: string, b: string)
    ensures var r := Added(Added(m, f, marker1, a), f, marker2, b);
      r.filelist == Added(m, f, marker1, a).filelist &&
      Body(r, f) == Body(m, f) + "\n" + a + "\n" + b
  {
    var m1 := Added(m, f, marker1, a);
    assert f in Names(m1.filelist) by {
      if f !in Names(m.filelist) {
        assert Names(m1.filelist)[|m.filelist|] == f;
      }
    }
  }

  /** Prepending twice puts the later fragment first. */
  lemma PrependTwice(m: Manifest, f: string, marker1: string, marker2: string, a: string, b: string)
    ensures var r := Prepended(Prepended(m, f, marker1, a), f, marker2, b);
      r.filelist == Prepended(m, f, marker1, a).filelist &&
      Body(r, f) == b + "\n" + a + "\n" + Body(m, f)
  {
    var m1 := Prepended(m, f, marker1, a);
    assert f in Names(m1.filelist) by {
      if f !in Names(m.filelist) {
        assert Names(m1.filelist)[|m.filelist|] == f;
      }
    }
  }

  // A run of calls on the aggregator, and what it leaves behind.

  datatype Call =
    | AddCall(file: string, marker: string, body: string)
    | PrependCall(file: string, marker: string, body: string)

  function Apply(m: Manifest, calls: seq<Call>): Manifest
  {
    if calls == [] then m
    else
      var m' := Apply(m, calls[..|calls| - 1]);
      match calls[|calls| - 1]
      case AddCall(f, mk, b) => Added(m', f, mk, b)
      case PrependCall(f, mk, b) => Prepended(m', f, mk, b)
  }

  /** The files the calls name. */
  function Files(calls: seq<Call>): set<string>
  {
    if calls == [] then {} else Files(calls[..|calls| - 1]) + {calls[|calls| - 1].file}
  }

  /** Reference definition of the file list: the calls whose file has not
      been named by an earlier call, in call order, with their marker. */
  function FirstSeen(calls: seq<Call>): seq<Entry>
  {
    if calls == [] then []
    else
      var init := calls[..|calls| - 1];
      var c := calls[|calls| - 1];
      FirstSeen(init) + (if c.file in Files(init) then [] else [(c.file, c.marker)])
  }

  /** Reference definition of one file's text: Add puts a newline and the
      fragment after it, Prepend puts the fragment and a newline before it. */
  function TextOf(calls: seq<Call>, f: string): string
  {
    if calls == [] then ""
    else
      var t := TextOf(calls[..|calls| - 1], f);
      var c := calls[|calls| - 1];
      if c.file != f then t
      else if c.AddCall? then t + "\n" + c.body
      else c.body + "\n" + t
  }

  /** From an empty aggregator, any run of addFile/prependFile calls lists
      each file once, in the order the files were first named and with the
      marker of that first call; exactly the named files have a body, and
      the state stays well formed. */
  lemma {:induction false} ApplyFileList(calls: seq<Call>)
    ensures var m := Apply(Empty, calls);
      WellFormed(m) && m.filelist == FirstSeen(calls) &&
      (forall f :: f in m.data <==> f in Files(calls))
  {
    if calls != [] {
      var init := calls[..|calls| - 1];
      ApplyFileList(init);
    }
  }

  /** ... and each file's text is the one its calls build, in call order. */
  lemma {:induction false} ApplyText(calls: seq<Call>, f: string)
    ensures Body(Apply(Empty, calls), f) == TextOf(calls, f)
  {
    if calls != [] {
      ApplyText(calls[..|calls| - 1], f);
    }
  }

  /** Two adds to one new file: one list entry, and each fragment after a
      newline, in call order. */
  lemma AddAddExample(f: string, marker: string, a: string, b: string)
    ensures var m := Apply(Empty, [AddCall(f, marker, a), AddCall(f, marker, b)]);
      m.filelist == [(f, marker)] && m.data == map[f := "\n" + a + "\n" + b]
  {
    var c1, c2 := AddCall(f, marker, a), AddCall(f, marker, b);
    var m1 := Added(Empty, f, marker, a);
    assert Apply(Empty, [c1]) == m1 by {
      assert [c1][..0] == [];
    }
    assert Apply(Empty, [c1, c2]) == Added(m1, f, marker, b) by {
      assert [c1, c2][..1] == [c1];
    }
    FirstAdd(f, marker, a);
    AddTwice(Empty, f, marker, marker, a, b);
    assert "" + "\n" + a == "\n" + a;
  }
}
