/** StartDocumentPathProvider: file paths come from the innermost open run (src/blueapi/utils/path_provider.py). */
module NestedRuns {
  import opened Basics

  type Uid = string

  datatype RunStart = RunStart(uid: Uid, template: Option<string>, directory: Option<string>)

  /** A document as the RunEngine emits it; only start and stop documents matter here. */
  datatype Document =
    | StartDoc(start: RunStart)
    | StopDoc(runStart: Option<Uid>)
    | OtherDoc(name: string)

  datatype StructureError = NoOpenRun | NotInnermost

  datatype PathError = OutsideRun | NoTemplate

  /** What the file name is made from: the template, and the document it is filled in with. */
  datatype PathInfo = PathInfo(directory: string, template: string, source: RunStart)

  // ---------- the class ----------

  /** What a document does to the stack of open runs. */
  function Handle(stack: seq<RunStart>, doc: Document): Result<seq<RunStart>, StructureError> {
    match doc
    case StartDoc(start) => Ok(stack + [start])
    case StopDoc(uid) =>
      if stack == [] then Err(NoOpenRun)
      else if uid == Some(stack[|stack| - 1].uid) then Ok(stack[..|stack| - 1])
      else Err(NotInnermost)
    case OtherDoc(_) => Ok(stack)
  }

  class PathProvider {
    var docs: seq<RunStart>

    constructor ()
      ensures docs == []
    {
      docs := [];
    }

    method RunStart(doc: Document)
      modifies this
      ensures docs == if doc.StartDoc? then old(docs) + [doc.start] else old(docs)
    {
      if doc.StartDoc? {
        docs := docs + [doc.start];
      }
    }

    method RunStop(doc: Document) returns (error: Option<StructureError>)
      modifies this
      ensures error.None? && !doc.StartDoc? ==> Handle(old(docs), doc) == Ok(docs)
      ensures error.Some? ==> doc.StopDoc? && Handle(old(docs), doc) == Err(error.value) && docs == old(docs)
      ensures doc.StartDoc? ==> docs == old(docs)
    {
      error := None;
      if doc.StopDoc? {
        if docs == [] {
          return Some(NoOpenRun);
        }
        if doc.runStart == Some(docs[|docs| - 1].uid) {
          docs := docs[..|docs| - 1];
        } else {
          return Some(NotInnermost);
        }
      }
    }

    /** Both callbacks, as the engine calls them for each document. */
    method Receive(doc: Document) returns (error: Option<StructureError>)
      modifies this
      ensures error.None? ==> Handle(old(docs), doc) == Ok(docs)
      ensures error.Some? ==> Handle(old(docs), doc) == Err(error.value) && docs == old(docs)
    {
      RunStart(doc);
      error := RunStop(doc);
    }

    method PathFor() returns (r: Result<PathInfo, PathError>)
      ensures docs == [] <==> r == Err(OutsideRun)
      ensures docs != [] ==> var doc := docs[|docs| - 1];
                r == if doc.template.None? || doc.template.value == "" then Err(NoTemplate)
                     else Ok(PathInfo(if doc.directory.Some? then doc.directory.value else "/tmp",
                                 doc.template.value, doc))
    {
      if docs == [] {
        return Err(OutsideRun);
      }
      var doc := docs[|docs| - 1];
      if doc.template.None? || doc.template.value == "" {
        return Err(NoTemplate);
      }
      var directory := match doc.directory case Some(d) => d case None => "/tmp";
      r := Ok(PathInfo(directory, doc.template.value, doc));
    }
  }

  // ---------- whole document streams ----------

  function HandleAll(stack: seq<RunStart>, docs: seq<Document>): Result<seq<RunStart>, StructureError>
    decreases |docs|
  {
    if docs == [] then Ok(stack) else
    match HandleAll(stack, docs[..|docs| - 1])
    case Err(e) => Err(e)
    case Ok(open) => Handle(open, docs[|docs| - 1])
  }

  // ---------- properly nested runs ----------

  /** How a stream is nested: runs one after the other, each around a properly nested stream, and other documents. */
  datatype Nesting =
    | Nothing
    | Other(name: string, rest: Nesting)
    | Run(start: RunStart, inner: Nesting, rest: Nesting)

  /** The documents of a nesting; each stop names the uid of its start. */
  function Word(n: Nesting): seq<Document> {
    match n
    case Nothing => []
    case Other(name, rest) => [OtherDoc(name)] + Word(rest)
    case Run(start, inner, rest) => [StartDoc(start)] + Word(inner) + [StopDoc(Some(start.uid))] + Word(rest)
  }

  ghost predicate WellNested(docs: seq<Document>) {
    exists n :: Word(n) == docs
  }

  function Then(n: Nesting, m: Nesting): Nesting {
    match n
    case Nothing => m
    case Other(name, rest) => Other(name, Then(rest, m))
    case Run(start, inner, rest) => Run(start, inner, Then(rest, m))
  }

  lemma {:induction false} WordThen(n: Nesting, m: Nesting)
    ensures Word(Then(n, m)) == Word(n) + Word(m)
  {
    match n
    case Nothing =>
    case Other(name, rest) =>
      WordThen(rest, m);
      assert [OtherDoc(name)] + (Word(rest) + Word(m)) == Word(n) + Word(m);
    case Run(start, inner, rest) =>
      WordThen(rest, m);
      var run := [StartDoc(start)] + Word(inner) + [StopDoc(Some(start.uid))];
      assert run + (Word(rest) + Word(m)) == run + Word(rest) + Word(m);
  }

  lemma {:induction false} HandleConcat(stack: seq<RunStart>, a: seq<Document>, b: seq<Document>)
    requires HandleAll(stack, a).Ok?
    ensures HandleAll(stack, a + b) == HandleAll(HandleAll(stack, a).value, b)
    decreases |b|
  {
    if b == [] {
      assert a + b == a;
    } else {
      HandleConcat(stack, a, b[..|b| - 1]);
      assert (a + b)[..|a + b| - 1] == a + b[..|b| - 1];
    }
  }

  lemma HandleOne(stack: seq<RunStart>, doc: Document)
    ensures HandleAll(stack, [doc]) == Handle(stack, doc)
  {
    assert [doc][..0] == [];
  }

  lemma {:induction false} PrefixAccepted(stack: seq<RunStart>, docs: seq<Document>, n: nat)
    requires HandleAll(stack, docs).Ok? && n <= |docs|
    ensures HandleAll(stack, docs[..n]).Ok?
    decreases |docs|
  {
    if n == |docs| {
      assert docs[..n] == docs;
    } else {
      PrefixAccepted(stack, docs[..|docs| - 1], n);
      assert docs[..|docs| - 1][..n] == docs[..n];
    }
  }

  /** A properly nested stream leaves the stack as it was, whatever is on it. */
  lemma {:induction false} NestingKeepsStack(stack: seq<RunStart>, n: Nesting)
    ensures HandleAll(stack, Word(n)) == Ok(stack)
    decreases n
  {
    match n
    case Nothing =>
    case Other(name, rest) =>
      HandleOne(stack, OtherDoc(name));
      NestingKeepsStack(stack, rest);
      HandleConcat(stack, [OtherDoc(name)], Word(rest));
    case Run(start, inner, rest) =>
      NestingKeepsStack(stack + [start], inner);
      NestingKeepsStack(stack, rest);
      RunKeepsStack(stack, start, Word(inner));
      HandleConcat(stack, [StartDoc(start)] + Word(inner) + [StopDoc(Some(start.uid))], Word(rest));
  }

  lemma RunKeepsStack(stack: seq<RunStart>, start: RunStart, inner: seq<Document>)
    requires HandleAll(stack + [start], inner) == Ok(stack + [start])
    ensures HandleAll(stack, [StartDoc(start)] + inner + [StopDoc(Some(start.uid))]) == Ok(stack)
  {
    HandleOne(stack, StartDoc(start));
    HandleConcat(stack, [StartDoc(start)], inner);
    HandleOne(stack + [start], StopDoc(Some(start.uid)));
    HandleConcat(stack, [StartDoc(start)] + inner, [StopDoc(Some(start.uid))]);
    assert (stack + [start])[..|stack|] == stack;
  }

  // ---------- streams with runs still open ----------

  datatype OpenRuns =
    | AllClosed(closed: Nesting)
    | Inside(before: OpenRuns, start: RunStart, since: Nesting)

  function OpenWord(o: OpenRuns): seq<Document> {
    match o
    case AllClosed(n) => Word(n)
    case Inside(before, start, since) => OpenWord(before) + [StartDoc(start)] + Word(since)
  }

  /** The starts of the open runs, the innermost last. */
  function Starts(o: OpenRuns): seq<RunStart> {
    match o
    case AllClosed(_) => []
    case Inside(before, start, _) => Starts(before) + [start]
  }

  ghost predicate Opens(docs: seq<Document>, open: seq<RunStart>) {
    exists o :: OpenWord(o) == docs && Starts(o) == open
  }

  lemma {:induction false} OpenRunsAreStack(o: OpenRuns)
    ensures HandleAll([], OpenWord(o)) == Ok(Starts(o))
  {
    match o
    case AllClosed(n) => NestingKeepsStack([], n);
    case Inside(before, start, since) =>
      OpenRunsAreStack(before);
      HandleOne(Starts(before), StartDoc(start));
      HandleConcat([], OpenWord(before), [StartDoc(start)]);
      NestingKeepsStack(Starts(o), since);
      HandleConcat([], OpenWord(before) + [StartDoc(start)], Word(since));
  }

  /** Adds a properly nested stream at the end. */
  function Extended(o: OpenRuns, n: Nesting): OpenRuns {
    match o
    case AllClosed(m) => AllClosed(Then(m, n))
    case Inside(before, start, since) => Inside(before, start, Then(since, n))
  }

  lemma ExtendedWord(o: OpenRuns, n: Nesting)
    ensures OpenWord(Extended(o, n)) == OpenWord(o) + Word(n) && Starts(Extended(o, n)) == Starts(o)
  {
    match o
    case AllClosed(m) => WordThen(m, n);
    case Inside(before, start, since) =>
      WordThen(since, n);
      var head := OpenWord(before) + [StartDoc(start)];
      assert head + (Word(since) + Word(n)) == head + Word(since) + Word(n);
  }

  /** Every accepted stream is a stream with open runs, and they are what is on the stack. */
  lemma {:induction false} StackIsOpenRuns(docs: seq<Document>) returns (o: OpenRuns)
    requires HandleAll([], docs).Ok?
    ensures OpenWord(o) == docs && Starts(o) == HandleAll([], docs).value
    decreases |docs|
  {
    if docs == [] {
      o := AllClosed(Nothing);
    } else {
      var before, last := docs[..|docs| - 1], docs[|docs| - 1];
      o := StackIsOpenRuns(before);
      assert docs == before + [last];
      match last {
        case StartDoc(start) =>
          o := Inside(o, start, Nothing);
          assert before + [last] + [] == docs;
        case OtherDoc(name) =>
          ExtendedWord(o, Other(name, Nothing));
          assert [last] + [] == [last];
          o := Extended(o, Other(name, Nothing));
        case StopDoc(_) =>
          assert o.Inside?;
          o := CloseRun(o, last);
      }
    }
  }

  lemma CloseRun(o: OpenRuns, stop: Document) returns (closed: OpenRuns)
    requires o.Inside? && stop == StopDoc(Some(o.start.uid))
    ensures OpenWord(closed) == OpenWord(o) + [stop] && Starts(closed) == Starts(o.before)
    ensures Starts(closed) == Starts(o)[..|Starts(o)| - 1]
  {
    var run := Run(o.start, o.since, Nothing);
    ExtendedWord(o.before, run);
    closed := Extended(o.before, run);
    var word := [StartDoc(o.start)] + Word(o.since) + [stop];
    assert word + [] == word;
    assert OpenWord(o.before) + word == OpenWord(o) + [stop];
  }

  // ---------- main results ----------

  /** Accepted, with this stack left, exactly when it is properly nested but for these open runs. */
  lemma AcceptsOpenRuns(docs: seq<Document>, open: seq<RunStart>)
    ensures HandleAll([], docs) == Ok(open) <==> Opens(docs, open)
  {
    if HandleAll([], docs) == Ok(open) {
      var o := StackIsOpenRuns(docs);
    }
    if o :| OpenWord(o) == docs && Starts(o) == open {
      OpenRunsAreStack(o);
    }
  }

  /** Accepted with nothing left open exactly when the runs are properly nested and matched on uid. */
  lemma AcceptsWellNested(docs: seq<Document>)
    ensures HandleAll([], docs) == Ok([]) <==> WellNested(docs)
  {
    if HandleAll([], docs) == Ok([]) {
      var o := StackIsOpenRuns(docs);
      assert o.AllClosed?;
    }
    if n :| Word(n) == docs {
      NestingKeepsStack([], n);
    }
  }

  /** The run was started, and everything since then is properly nested: it is the innermost open one. */
  ghost predicate InnermostOpen(docs: seq<Document>, start: RunStart) {
    exists i :: 0 <= i < |docs| && docs[i] == StartDoc(start) && WellNested(docs[i + 1..])
  }

  lemma StartedAt(docs: seq<Document>, start: RunStart, i: nat, n: Nesting)
    requires HandleAll([], docs).Ok? && i < |docs| && docs[i] == StartDoc(start) && Word(n) == docs[i + 1..]
    ensures HandleAll([], docs[..i]).Ok? && HandleAll([], docs) == Ok(HandleAll([], docs[..i]).value + [start])
  {
    PrefixAccepted([], docs, i);
    StartedAfter(docs[..i], start, docs[i + 1..], n);
    assert docs[..i] + [StartDoc(start)] + docs[i + 1..] == docs;
  }

  lemma StartedAfter(before: seq<Document>, start: RunStart, since: seq<Document>, n: Nesting)
    requires HandleAll([], before).Ok? && Word(n) == since
    ensures HandleAll([], before + [StartDoc(start)] + since) == Ok(HandleAll([], before).value + [start])
  {
    var below := HandleAll([], before).value;
    HandleOne(below, StartDoc(start));
    HandleConcat([], before, [StartDoc(start)]);
    NestingKeepsStack(below + [start], n);
    HandleConcat([], before + [StartDoc(start)], since);
  }

  lemma TopIsInnermost(docs: seq<Document>, start: RunStart)
    requires HandleAll([], docs).Ok?
    ensures var open := HandleAll([], docs).value;
            InnermostOpen(docs, start) <==> open != [] && open[|open| - 1] == start
  {
    var open := HandleAll([], docs).value;
    if open != [] && open[|open| - 1] == start {
      var o := StackIsOpenRuns(docs);
      var i := |OpenWord(o.before)|;
      assert docs[i] == StartDoc(start) && docs[i + 1..] == Word(o.since);
    }
    if i :| 0 <= i < |docs| && docs[i] == StartDoc(start) && WellNested(docs[i + 1..]) {
      var n :| Word(n) == docs[i + 1..];
      StartedAt(docs, start, i, n);
    }
  }

  /** A stop after an accepted stream is rejected exactly if no run is open, or the innermost one has another uid. */
  lemma RejectsExactly(docs: seq<Document>, uid: Option<Uid>)
    requires HandleAll([], docs).Ok?
    ensures var r := Handle(HandleAll([], docs).value, StopDoc(uid));
            && (r == Err(NoOpenRun) <==> WellNested(docs))
            && (r == Err(NotInnermost) <==> exists start :: InnermostOpen(docs, start) && uid != Some(start.uid))
  {
    AcceptsWellNested(docs);
    var open := HandleAll([], docs).value;
    forall start ensures InnermostOpen(docs, start) <==> open != [] && open[|open| - 1] == start {
      TopIsInnermost(docs, start);
    }
    if open != [] {
      assert InnermostOpen(docs, open[|open| - 1]);
    }
  }

  /** A path request after an accepted stream is answered from its innermost open run. */
  method PathAfter(docs: seq<Document>) returns (r: Result<PathInfo, PathError>)
    requires HandleAll([], docs).Ok?
    ensures r.Ok? ==> InnermostOpen(docs, r.value.source)
    ensures r == Err(OutsideRun) <==> WellNested(docs)
  {
    var provider := new PathProvider();
    for i := 0 to |docs|
      invariant HandleAll([], docs[..i]) == Ok(provider.docs)
    {
      assert docs[..i + 1][..i] == docs[..i];
      PrefixAccepted([], docs, i + 1);
      var _ := provider.Receive(docs[i]);
    }
    assert docs[..|docs|] == docs;
    r := provider.PathFor();
    AcceptsWellNested(docs);
    if r.Ok? {
      TopIsInnermost(docs, r.value.source);
    }
  }
}
