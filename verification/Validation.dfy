/**
 The build of a CueInstance and its validation policy (controllers/cueinstance_controller.go, `build`
 and `checkGates`). What CUE computes is given: each document comes with its encoding and a verdict.
 */
module Validation {
  import opened Wrappers

  const CUE := "cue"
  const YAML := "yaml"
  const SEPARATOR := "\n---\n"

  /** What to do about invalid documents; `Unlisted` is any other text in the field. */
  datatype Mode = Fail | Drop | Audit | Ignore | Unlisted

  datatype Validate = Validate(kind: string, mode: Mode)

  /** A document: its encoding, unless that fails, and whether it satisfies the schema. */
  datatype Document = Document(encoded: Option<string>, valid: bool)

  datatype Content = Unreadable | List(items: seq<Document>) | BrokenList | Struct(item: Document) | Scalar

  datatype OrphanedFile = OrphanedFile(encoding: string, content: Content)

  /** The evaluated module: the instance as a whole, the configured expressions, the files beside it. */
  datatype Input = Input(whole: Document, exprs: seq<Document>, files: seq<OrphanedFile>)

  /** What a build leaves: its output unless it failed, and how many events it sent. */
  datatype Built = Built(output: Option<string>, events: nat)

  // ---------------------------------------------------------------- the documents in order

  /** A document as the build meets it; one that is not `written` is examined only. */
  datatype Piece = Piece(kind: string, document: Document, written: bool)

  function Failing(v: Option<Validate>, p: Piece): bool {
    v.Some? && v.value.kind == p.kind && !p.document.valid
  }

  function Text(p: Piece): string {
    if !p.written || p.document.encoded.None? then ""
    else p.document.encoded.value + if p.kind == YAML then SEPARATOR else ""
  }

  function AsPieces(kind: string, documents: seq<Document>, written: bool): (r: seq<Piece>)
    ensures |r| == |documents|
  {
    seq(|documents|, i requires 0 <= i < |documents| => Piece(kind, documents[i], written))
  }

  const BROKEN := Document(None, true)

  function FilePieces(f: OrphanedFile): seq<Piece> {
    if f.encoding != YAML then []
    else
      match f.content
      case Unreadable => [Piece(YAML, BROKEN, true)]
      case List(items) => AsPieces(YAML, items, true)
      case BrokenList => [Piece(YAML, BROKEN, true)]
      case Struct(item) => [Piece(YAML, item, true)]
      case Scalar => []
  }

  function FilesPieces(files: seq<OrphanedFile>): seq<Piece> {
    if files == [] then [] else FilesPieces(files[..|files| - 1]) + FilePieces(files[|files| - 1])
  }

  /** Without expressions the whole value is encoded and validated, and never written. */
  function HeadPieces(input: Input): seq<Piece> {
    if |input.exprs| > 0 then AsPieces(CUE, input.exprs, true) else [Piece(CUE, input.whole, false)]
  }

  function Pieces(input: Input): seq<Piece> {
    HeadPieces(input) + FilesPieces(input.files)
  }

  // ---------------------------------------------------------------- the fold

  /** One more document. */
  function Next(v: Option<Validate>, b: Built, p: Piece): Built {
    if b.output.None? then b
    else if p.document.encoded.None? then Built(None, b.events)
    else if !Failing(v, p) then Built(Some(b.output.value + Text(p)), b.events)
    else
      match v.value.mode
      case Fail => Built(None, b.events + 1)
      case Drop => Built(b.output, b.events + 1)
      case Audit => Built(Some(b.output.value + Text(p)), b.events + 1)
      case _ => Built(Some(b.output.value + Text(p)), b.events)
  }

  function Fold(v: Option<Validate>, b: Built, pieces: seq<Piece>): Built {
    if pieces == [] then b else Next(v, Fold(v, b, pieces[..|pieces| - 1]), pieces[|pieces| - 1])
  }

  const START := Built(Some(""), 0)

  lemma {:induction false} FoldConcat(v: Option<Validate>, b: Built, xs: seq<Piece>, ys: seq<Piece>)
    ensures Fold(v, b, xs + ys) == Fold(v, Fold(v, b, xs), ys)
  {
    if ys == [] {
      assert xs + ys == xs;
    } else {
      assert (xs + ys)[..|xs + ys| - 1] == xs + ys[..|ys| - 1];
      FoldConcat(v, b, xs, ys[..|ys| - 1]);
    }
  }

  lemma {:induction false} FailedStays(v: Option<Validate>, b: Built, pieces: seq<Piece>)
    requires b.output.None?
    ensures Fold(v, b, pieces) == b
  {
    if pieces != [] {
      FailedStays(v, b, pieces[..|pieces| - 1]);
    }
  }

  lemma FoldOne(v: Option<Validate>, b: Built, p: Piece)
    ensures Fold(v, b, [p]) == Next(v, b, p)
  {
    assert [p][..0] == [];
    assert Fold(v, b, []) == b;
  }

  lemma FoldStep(v: Option<Validate>, b: Built, pieces: seq<Piece>, i: nat)
    requires i < |pieces|
    ensures Fold(v, b, pieces[..i + 1]) == Next(v, Fold(v, b, pieces[..i]), pieces[i])
  {
    assert pieces[..i + 1][..i] == pieces[..i];
  }

  /** A build that fails at a document has failed. */
  lemma FailsAt(v: Option<Validate>, b: Built, pieces: seq<Piece>, i: nat)
    requires i < |pieces| && Fold(v, b, pieces[..i + 1]).output.None?
    ensures Fold(v, b, pieces) == Fold(v, b, pieces[..i + 1])
  {
    assert pieces == pieces[..i + 1] + pieces[i + 1..];
    FoldConcat(v, b, pieces[..i + 1], pieces[i + 1..]);
    FailedStays(v, Fold(v, b, pieces[..i + 1]), pieces[i + 1..]);
  }

  lemma FilesConcat(files: seq<OrphanedFile>, i: nat)
    requires i < |files|
    ensures FilesPieces(files[..i + 1]) == FilesPieces(files[..i]) + FilePieces(files[i])
  {
    assert files[..i + 1][..i] == files[..i];
  }

  lemma {:induction false} RestFails(v: Option<Validate>, b: Built, files: seq<OrphanedFile>, n: nat)
    requires n <= |files| && Fold(v, b, FilesPieces(files[..n])).output.None?
    ensures Fold(v, b, FilesPieces(files)) == Fold(v, b, FilesPieces(files[..n]))
    decreases |files| - n
  {
    if n == |files| {
      assert files[..n] == files;
    } else {
      FilesConcat(files, n);
      FoldConcat(v, b, FilesPieces(files[..n]), FilePieces(files[n]));
      FailedStays(v, Fold(v, b, FilesPieces(files[..n])), FilePieces(files[n]));
      RestFails(v, b, files, n + 1);
    }
  }

  // ---------------------------------------------------------------- what a build writes, document by document

  /** A document of this type fails the build: it does not encode, or it is invalid and not allowed to be. */
  predicate Breaks(v: Option<Validate>, kind: string, d: Document) {
    d.encoded.None? || (v.Some? && v.value.kind == kind && v.value.mode.Fail? && !d.valid)
  }

  /** What else is written of it: nothing if it is dropped as invalid, and after YAML the separator. */
  function Written(v: Option<Validate>, kind: string, d: Document): string {
    if d.encoded.None? || (v.Some? && v.value.kind == kind && v.value.mode.Drop? && !d.valid) then ""
    else d.encoded.value + if kind == YAML then SEPARATOR else ""
  }

  predicate AnyBreaks(v: Option<Validate>, kind: string, ds: seq<Document>) {
    exists d :: d in ds && Breaks(v, kind, d)
  }

  function AllWritten(v: Option<Validate>, kind: string, ds: seq<Document>): string {
    if ds == [] then "" else AllWritten(v, kind, ds[..|ds| - 1]) + Written(v, kind, ds[|ds| - 1])
  }

  /** Only YAML files matter, and of these only those that hold a list or a struct, or cannot be read. */
  predicate FileBreaks(v: Option<Validate>, f: OrphanedFile) {
    f.encoding == YAML &&
      (|| f.content.Unreadable? || f.content.BrokenList?
       || (f.content.Struct? && Breaks(v, YAML, f.content.item))
       || (f.content.List? && AnyBreaks(v, YAML, f.content.items)))
  }

  function FileText(v: Option<Validate>, f: OrphanedFile): string {
    if f.encoding == YAML && f.content.Struct? then Written(v, YAML, f.content.item)
    else if f.encoding == YAML && f.content.List? then AllWritten(v, YAML, f.content.items)
    else ""
  }

  function FilesText(v: Option<Validate>, files: seq<OrphanedFile>): string {
    if files == [] then "" else FilesText(v, files[..|files| - 1]) + FileText(v, files[|files| - 1])
  }

  predicate AnyFileBreaks(v: Option<Validate>, files: seq<OrphanedFile>) {
    exists f :: f in files && FileBreaks(v, f)
  }

  /** Some expression or, without expressions, the whole value fails the build. */
  predicate HeadBreaks(v: Option<Validate>, input: Input) {
    if |input.exprs| > 0 then AnyBreaks(v, CUE, input.exprs) else Breaks(v, CUE, input.whole)
  }

  predicate InputBreaks(v: Option<Validate>, input: Input) {
    HeadBreaks(v, input) || AnyFileBreaks(v, input.files)
  }

  function InputText(v: Option<Validate>, input: Input): string {
    AllWritten(v, CUE, input.exprs) + FilesText(v, input.files)
  }

  /** `after` has failed if `broken`, and otherwise has this text more than `before`. */
  predicate Adds(before: Built, after: Built, broken: bool, text: string) {
    before.output.Some? && after.output == if broken then None else Some(before.output.value + text)
  }

  lemma NextAdds(v: Option<Validate>, b: Built, kind: string, d: Document)
    requires b.output.Some?
    ensures Adds(b, Next(v, b, Piece(kind, d, true)), Breaks(v, kind, d), Written(v, kind, d))
  {
    assert b.output.value + "" == b.output.value;
  }

  lemma NothingAdds(b: Built)
    requires b.output.Some?
    ensures Adds(b, b, false, "")
  {
    assert b.output.value + "" == b.output.value;
  }

  /** One addition after the other. */
  lemma AddsUp(a: Built, b: Built, c: Built, broken: bool, text: string, more: bool, rest: string)
    requires Adds(a, b, broken, text)
    requires if b.output.None? then c.output.None? else Adds(b, c, more, rest)
    ensures Adds(a, c, broken || more, text + rest)
  {
    assert (a.output.value + text) + rest == a.output.value + (text + rest);
  }

  lemma {:induction false} ItemsAdd(v: Option<Validate>, b: Built, kind: string, ds: seq<Document>)
    requires b.output.Some?
    ensures Adds(b, Fold(v, b, AsPieces(kind, ds, true)), AnyBreaks(v, kind, ds), AllWritten(v, kind, ds))
  {
    if ds == [] {
      NothingAdds(b);
    } else {
      var init, last := ds[..|ds| - 1], ds[|ds| - 1];
      assert AsPieces(kind, ds, true)[..|ds| - 1] == AsPieces(kind, init, true);
      ItemsAdd(v, b, kind, init);
      var middle := Fold(v, b, AsPieces(kind, init, true));
      var after := Next(v, middle, Piece(kind, last, true));
      if middle.output.Some? {
        NextAdds(v, middle, kind, last);
      }
      AddsUp(b, middle, after, AnyBreaks(v, kind, init), AllWritten(v, kind, init), Breaks(v, kind, last),
        Written(v, kind, last));
      assert AnyBreaks(v, kind, ds) <==> AnyBreaks(v, kind, init) || Breaks(v, kind, last) by {
        assert forall d :: d in ds <==> d in init || d == last;
      }
      assert Fold(v, b, AsPieces(kind, ds, true)) == after;
    }
  }

  lemma FileAdds(v: Option<Validate>, b: Built, f: OrphanedFile)
    requires b.output.Some?
    ensures Adds(b, Fold(v, b, FilePieces(f)), FileBreaks(v, f), FileText(v, f))
  {
    if f.encoding == YAML {
      match f.content
      case List(items) => ItemsAdd(v, b, YAML, items);
      case Struct(item) =>
        FoldOne(v, b, Piece(YAML, item, true));
        NextAdds(v, b, YAML, item);
      case Unreadable => FoldOne(v, b, Piece(YAML, BROKEN, true));
      case BrokenList => FoldOne(v, b, Piece(YAML, BROKEN, true));
      case Scalar => NothingAdds(b);
    } else {
      NothingAdds(b);
    }
  }

  lemma {:induction false} FilesAdd(v: Option<Validate>, b: Built, files: seq<OrphanedFile>)
    requires b.output.Some?
    ensures Adds(b, Fold(v, b, FilesPieces(files)), AnyFileBreaks(v, files), FilesText(v, files))
  {
    if files == [] {
      NothingAdds(b);
    } else {
      var init, last := files[..|files| - 1], files[|files| - 1];
      FilesAdd(v, b, init);
      FoldConcat(v, b, FilesPieces(init), FilePieces(last));
      var middle := Fold(v, b, FilesPieces(init));
      var after := Fold(v, middle, FilePieces(last));
      if middle.output.Some? {
        FileAdds(v, middle, last);
      } else {
        FailedStays(v, middle, FilePieces(last));
      }
      AddsUp(b, middle, after, AnyFileBreaks(v, init), FilesText(v, init), FileBreaks(v, last), FileText(v, last));
      assert AnyFileBreaks(v, files) <==> AnyFileBreaks(v, init) || FileBreaks(v, last) by {
        assert forall f :: f in files <==> f in init || f == last;
      }
    }
  }

  lemma HeadAdds(v: Option<Validate>, b: Built, input: Input)
    requires b.output.Some?
    ensures Adds(b, Fold(v, b, HeadPieces(input)), HeadBreaks(v, input), AllWritten(v, CUE, input.exprs))
  {
    if |input.exprs| > 0 {
      ItemsAdd(v, b, CUE, input.exprs);
    } else {
      FoldOne(v, b, Piece(CUE, input.whole, false));
      NothingAdds(b);
    }
  }

  /**
   What a build gives, said of its input alone: it fails exactly when some document or file breaks it; otherwise
   it has written the expressions and then the YAML documents, file by file and item by item.
   */
  lemma OutputIs(v: Option<Validate>, b: Built, input: Input)
    requires b.output.Some?
    ensures Adds(b, Fold(v, b, Pieces(input)), InputBreaks(v, input), InputText(v, input))
  {
    FoldConcat(v, b, HeadPieces(input), FilesPieces(input.files));
    var middle := Fold(v, b, HeadPieces(input));
    var after := Fold(v, middle, FilesPieces(input.files));
    HeadAdds(v, b, input);
    if middle.output.Some? {
      FilesAdd(v, middle, input.files);
    } else {
      FailedStays(v, middle, FilesPieces(input.files));
    }
    AddsUp(b, middle, after, HeadBreaks(v, input), AllWritten(v, CUE, input.exprs), AnyFileBreaks(v, input.files),
      FilesText(v, input.files));
  }

  lemma LastFile(v: Option<Validate>, init: seq<OrphanedFile>, last: OrphanedFile)
    ensures FilesText(v, init + [last]) == FilesText(v, init) + FileText(v, last)
  {
    assert (init + [last])[..|init|] == init;
  }

  /** Each file has its place in the output, after the files before it. */
  lemma {:induction false} FileInPlace(v: Option<Validate>, before: seq<OrphanedFile>, f: OrphanedFile,
          after: seq<OrphanedFile>)
    ensures FilesText(v, before + [f] + after) == FilesText(v, before) + FileText(v, f) + FilesText(v, after)
    decreases |after|
  {
    LastFile(v, before, f);
    if after == [] {
      assert before + [f] + after == before + [f];
    } else {
      var init, last := after[..|after| - 1], after[|after| - 1];
      assert after == init + [last] && before + [f] + after == (before + [f] + init) + [last];
      FileInPlace(v, before, f, init);
      LastFile(v, before + [f] + init, last);
      LastFile(v, init, last);
      Associate(FilesText(v, before) + FileText(v, f), FilesText(v, init), FileText(v, last));
    }
  }

  lemma Associate(x: string, y: string, z: string)
    ensures (x + y) + z == x + (y + z)
  {
  }

  // ---------------------------------------------------------------- the build

  /** The build: a buffer written in nested loops, and events for the recorder. */
  class Builder {
    const validate: Option<Validate>
    var result: string
    var events: nat

    constructor (validate: Option<Validate>)
      ensures this.validate == validate && State() == START
    {
      this.validate := validate;
      result, events := "", 0;
    }

    /** Where a build stands that has not failed. */
    function State(): Built
      reads this
    {
      Built(Some(result), events)
    }

    method Event()
      modifies `events
      ensures events == old(events) + 1
    {
      events := events + 1;
    }

    /** One document; `false` when the build fails. */
    method Examine(p: Piece) returns (ok: bool)
      modifies this
      ensures Next(validate, old(State()), p) == if ok then State() else Built(None, events)
    {
      if p.document.encoded.None? {
        return false;
      }
      if validate.Some? && validate.value.kind == p.kind {
        if !p.document.valid {
          match validate.value.mode
          case Fail =>
            Event();
            return false;
          case Drop =>
            Event();
            return true;
          case Audit =>
            Event();
          case Ignore =>
          case Unlisted =>
        }
      }
      if p.written {
        result := result + p.document.encoded.value;
        if p.kind == YAML {
          result := result + SEPARATOR;
        }
      }
      assert result == old(result) + Text(p);
      ok := true;
    }

    /** The documents of a list, until one fails. */
    method ExamineAll(kind: string, documents: seq<Document>) returns (ok: bool)
      modifies this
      ensures Fold(validate, old(State()), AsPieces(kind, documents, true)) ==
        if ok then State() else Built(None, events)
    {
      ghost var start, pieces := State(), AsPieces(kind, documents, true);
      for i := 0 to |documents|
        invariant Fold(validate, start, pieces[..i]) == State()
      {
        FoldStep(validate, start, pieces, i);
        ok := Examine(Piece(kind, documents[i], true));
        if !ok {
          FailsAt(validate, start, pieces, i);
          return;
        }
      }
      assert pieces[..|pieces|] == pieces;
      ok := true;
    }

    method BuildFile(f: OrphanedFile) returns (ok: bool)
      modifies this
      ensures Fold(validate, old(State()), FilePieces(f)) == if ok then State() else Built(None, events)
      ensures ok <==> !FileBreaks(validate, f)
      ensures ok ==> result == old(result) + FileText(validate, f)
    {
      FileAdds(validate, State(), f);
      ok := true;
      if f.encoding == YAML {
        match f.content
        case Unreadable =>
          FoldOne(validate, State(), Piece(YAML, BROKEN, true));
          ok := false;
        case List(items) =>
          ok := ExamineAll(YAML, items);
        case BrokenList =>
          FoldOne(validate, State(), Piece(YAML, BROKEN, true));
          ok := false;
        case Struct(item) =>
          FoldOne(validate, State(), Piece(YAML, item, true));
          ok := Examine(Piece(YAML, item, true));
        case Scalar =>
      }
    }

    method BuildFiles(files: seq<OrphanedFile>) returns (ok: bool)
      modifies this
      ensures Fold(validate, old(State()), FilesPieces(files)) == if ok then State() else Built(None, events)
    {
      ghost var start := State();
      for i := 0 to |files|
        invariant Fold(validate, start, FilesPieces(files[..i])) == State()
      {
        FilesConcat(files, i);
        FoldConcat(validate, start, FilesPieces(files[..i]), FilePieces(files[i]));
        ok := BuildFile(files[i]);
        if !ok {
          RestFails(validate, start, files, i + 1);
          return;
        }
      }
      assert files[..|files|] == files;
      ok := true;
    }

    /** Expressions, or the whole value, and then the files. */
    method Build(input: Input) returns (ok: bool)
      modifies this
      ensures Fold(validate, old(State()), Pieces(input)) == if ok then State() else Built(None, events)
      ensures ok <==> !InputBreaks(validate, input)
      ensures ok ==> result == old(result) + InputText(validate, input)
    {
      OutputIs(validate, State(), input);
      FoldConcat(validate, State(), HeadPieces(input), FilesPieces(input.files));
      if |input.exprs| > 0 {
        ok := ExamineAll(CUE, input.exprs);
      } else {
        FoldOne(validate, State(), Piece(CUE, input.whole, false));
        ok := Examine(Piece(CUE, input.whole, false));
      }
      if ok {
        ok := BuildFiles(input.files);
      } else {
        FailedStays(validate, Built(None, events), FilesPieces(input.files));
      }
    }
  }

  // ---------------------------------------------------------------- what the policies promise

  /** The documents that pass the check, or are not subject to it. */
  function Survivors(v: Option<Validate>, pieces: seq<Piece>): seq<Piece> {
    if pieces == [] then []
    else
      var init, last := Survivors(v, pieces[..|pieces| - 1]), pieces[|pieces| - 1];
      if Failing(v, last) then init else init + [last]
  }

  function Texts(pieces: seq<Piece>): string {
    if pieces == [] then "" else Texts(pieces[..|pieces| - 1]) + Text(pieces[|pieces| - 1])
  }

  function Failures(v: Option<Validate>, pieces: seq<Piece>): nat {
    if pieces == [] then 0 else Failures(v, pieces[..|pieces| - 1]) + if Failing(v, pieces[|pieces| - 1]) then 1 else 0
  }

  predicate AllEncoded(pieces: seq<Piece>) {
    forall p :: p in pieces ==> p.document.encoded.Some?
  }

  predicate SomeFails(v: Option<Validate>, pieces: seq<Piece>) {
    exists p :: p in pieces && Failing(v, p)
  }

  /**
   The policies. A build succeeds exactly when everything encodes and, in `Fail` mode, everything is valid.
   Then `Drop` has written the valid documents in order and every other mode all of them; `Drop` and
   `Audit` have sent one event per invalid document, the others none.
   */
  lemma {:induction false} Policies(mode: Mode, kind: string, pieces: seq<Piece>)
    ensures var v := Some(Validate(kind, mode));
      var b := Fold(v, START, pieces);
      && (b.output.Some? <==> AllEncoded(pieces) && !(mode.Fail? && SomeFails(v, pieces)))
      && (b.output.Some? ==>
            && b.output.value == Texts(if mode.Drop? then Survivors(v, pieces) else pieces)
            && b.events == if mode.Drop? || mode.Audit? then Failures(v, pieces) else 0)
      && (!SomeFails(v, pieces) ==> Failures(v, pieces) == 0 && Survivors(v, pieces) == pieces)
  {
    if pieces != [] {
      var init, last := pieces[..|pieces| - 1], pieces[|pieces| - 1];
      assert pieces == init + [last];
      Policies(mode, kind, init);
      var v := Some(Validate(kind, mode));
      assert AllEncoded(pieces) <==> AllEncoded(init) && last.document.encoded.Some?;
      assert SomeFails(v, pieces) <==> SomeFails(v, init) || Failing(v, last) by {
        assert forall p :: p in pieces <==> p in init || p == last;
      }
    }
  }

  /** Without validation everything is written and nothing reported. */
  lemma {:induction false} Unvalidated(pieces: seq<Piece>)
    ensures var b := Fold(None, START, pieces);
      && b.events == 0
      && (b.output.Some? <==> AllEncoded(pieces))
      && (b.output.Some? ==> b.output.value == Texts(pieces))
  {
    if pieces != [] {
      var init, last := pieces[..|pieces| - 1], pieces[|pieces| - 1];
      assert pieces == init + [last];
      Unvalidated(init);
    }
  }

  /** Once a build passes in `Fail` mode the mode does not matter: the same bytes, and no event. */
  lemma StrictPassMeansAll(kind: string, mode: Mode, pieces: seq<Piece>)
    requires Fold(Some(Validate(kind, Fail)), START, pieces).output.Some?
    ensures Fold(Some(Validate(kind, mode)), START, pieces) == Fold(Some(Validate(kind, Fail)), START, pieces)
    ensures Fold(Some(Validate(kind, mode)), START, pieces) == Fold(None, START, pieces)
  {
    Policies(Fail, kind, pieces);
    Policies(mode, kind, pieces);
    Unvalidated(pieces);
    assert forall p :: Failing(Some(Validate(kind, mode)), p) == Failing(Some(Validate(kind, Fail)), p);
  }

  /** `Fail` stops at the first invalid document, with one event, whatever comes after it. */
  lemma FailsAtTheFirst(kind: string, pieces: seq<Piece>, n: nat)
    requires n < |pieces| && AllEncoded(pieces[..n + 1])
    requires !SomeFails(Some(Validate(kind, Fail)), pieces[..n]) && Failing(Some(Validate(kind, Fail)), pieces[n])
    ensures Fold(Some(Validate(kind, Fail)), START, pieces) == Built(None, 1)
  {
    var v := Some(Validate(kind, Fail));
    assert forall p :: p in pieces[..n] ==> p in pieces[..n + 1];
    assert pieces[n] in pieces[..n + 1];
    Policies(Fail, kind, pieces[..n]);
    FoldStep(v, START, pieces, n);
    FailsAt(v, START, pieces, n);
  }

  function OfKind(kind: string, pieces: seq<Piece>): seq<Piece> {
    if pieces == [] then []
    else
      var init, last := OfKind(kind, pieces[..|pieces| - 1]), pieces[|pieces| - 1];
      if last.kind == kind then init + [last] else init
  }

  /** Documents of the other type are never dropped, and keep their order. */
  lemma {:induction false} OthersSurvive(v: Option<Validate>, kind: string, pieces: seq<Piece>)
    requires v.Some? ==> v.value.kind != kind
    ensures OfKind(kind, Survivors(v, pieces)) == OfKind(kind, pieces)
  {
    if pieces != [] {
      var last := pieces[|pieces| - 1];
      var init := Survivors(v, pieces[..|pieces| - 1]);
      OthersSurvive(v, kind, pieces[..|pieces| - 1]);
      if !Failing(v, last) {
        assert Survivors(v, pieces) == init + [last];
        assert (init + [last])[..|init|] == init;
      }
    }
  }

  /** What the field documentation promises: without expressions, the whole value. */
  function Promised(input: Input): seq<Piece> {
    (if |input.exprs| > 0 then HeadPieces(input) else [Piece(CUE, input.whole, true)]) + FilesPieces(input.files)
  }

  lemma {:induction false} TextsConcat(xs: seq<Piece>, ys: seq<Piece>)
    ensures Texts(xs + ys) == Texts(xs) + Texts(ys)
  {
    if ys == [] {
      assert xs + ys == xs;
    } else {
      assert (xs + ys)[..|xs + ys| - 1] == xs + ys[..|ys| - 1];
      TextsConcat(xs, ys[..|ys| - 1]);
      var x, y, z := Texts(xs), Texts(ys[..|ys| - 1]), Text(ys[|ys| - 1]);
      assert (x + y) + z == x + (y + z);
    }
  }

  /**
   The whole value is lost: the output is the promised one only with expressions, or when there is nothing to
   write.
   */
  lemma WholeValueIsLost(input: Input)
    requires AllEncoded(Promised(input))
    ensures Fold(None, START, Pieces(input)).output == Some(Texts(Promised(input)))
       <==> |input.exprs| > 0 || input.whole.encoded.value == ""
  {
    if |input.exprs| == 0 {
      var rest := FilesPieces(input.files);
      var asked, silent := Piece(CUE, input.whole, true), Piece(CUE, input.whole, false);
      assert asked in Promised(input);
      assert forall p :: p in rest ==> p in Promised(input);
      assert AllEncoded(Pieces(input));
      TextsConcat([asked], rest);
      TextsConcat([silent], rest);
      assert Texts([asked]) == input.whole.encoded.value by {
        assert [asked][..0] == [];
      }
      assert Texts([silent]) == "" by {
        assert [silent][..0] == [];
      }
      assert |Texts(Promised(input))| == |input.whole.encoded.value| + |Texts(rest)|;
    }
    Unvalidated(Pieces(input));
  }

  // ---------------------------------------------------------------- gates

  /** A gate: whether its value is valid, and the boolean it holds, if it holds one. */
  datatype Gate = Gate(name: string, valid: bool, result: Option<bool>)

  predicate Open(g: Gate) {
    g.valid && g.result == Some(true)
  }

  /** The names of the gates that are closed, in order. */
  method CheckGates(gates: seq<Gate>) returns (errors: seq<string>)
    ensures errors == [] <==> forall g :: g in gates ==> Open(g)
    ensures forall name :: name in errors <==> exists g :: g in gates && !Open(g) && g.name == name
  {
    errors := [];
    for i := 0 to |gates|
      invariant errors == [] <==> forall g :: g in gates[..i] ==> Open(g)
      invariant forall name :: name in errors <==> exists g :: g in gates[..i] && !Open(g) && g.name == name
    {
      var open := if gates[i].result.Some? then gates[i].result.value else false;
      assert gates[..i + 1] == gates[..i] + [gates[i]];
      assert gates[i] in gates[..i + 1];
      if !open || !gates[i].valid {
        errors := errors + [gates[i].name];
      }
    }
    assert gates[..|gates|] == gates;
  }
}
