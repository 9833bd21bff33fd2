/**
 The part of a reconciliation before it applies anything: fetch the artifact, build, check the gates and
 read the objects.
 */
module Preparation {
  import opened Wrappers
  import opened Validation
  import opened Statuses
  import opened Machine
  import opened Driver

  /**
   What the outside answers before the apply: the reason for which fetching the artifact, finding the
   paths or building a client fails; the module as the build loads it and the gates as the check loads
   them, unless that fails; and the objects that some text describes, if it is readable.
   */
  datatype Answers = Answers(
    obstacle: Option<string>,
    input: Option<Input>,
    gates: Option<seq<Gate>>,
    read: string -> Option<seq<Desired>>)

  predicate AllOpen(gates: seq<Gate>) {
    forall g :: g in gates ==> Open(g)
  }

  /** The output of the build, unless it fails. */
  function Output(v: Option<Validate>, a: Answers): Option<string> {
    if a.input.None? then None else Fold(v, START, Pieces(a.input.value)).output
  }

  function Prepared(v: Option<Validate>, a: Answers): BuildResult {
    if a.obstacle.Some? then Broken(a.obstacle.value)
    else if Output(v, a).None? then Broken(BUILD_FAILED)
    else if !(a.gates.Some? && AllOpen(a.gates.value)) then Closed
    else
      var objects := a.read(Output(v, a).value);
      if objects.None? then Broken(BUILD_FAILED) else Objects(objects.value)
  }

  method Prepare(v: Option<Validate>, a: Answers) returns (r: BuildResult)
    ensures r == Prepared(v, a)
  {
    if a.obstacle.Some? {
      return Broken(a.obstacle.value);
    }
    if a.input.None? {
      return Broken(BUILD_FAILED);
    }
    var builder := new Builder(v);
    var built := builder.Build(a.input.value);
    if !built {
      return Broken(BUILD_FAILED);
    }
    if a.gates.None? {
      return Closed;
    }
    var errors := CheckGates(a.gates.value);
    if errors != [] {
      return Closed;
    }
    var objects := a.read(builder.result);
    if objects.None? {
      return Broken(BUILD_FAILED);
    }
    r := Objects(objects.value);
  }

  /** Objects reach the apply exactly when nothing failed and every gate is valid and true. */
  lemma ApplyNeedsOpenGates(v: Option<Validate>, a: Answers)
    ensures Prepared(v, a).Objects? <==>
      && a.obstacle.None? && Output(v, a).Some? && a.read(Output(v, a).value).Some?
      && a.gates.Some? && forall g :: g in a.gates.value ==> g.valid && g.result == Some(true)
  {
    if a.gates.Some? {
      assert AllOpen(a.gates.value) <==> forall g :: g in a.gates.value ==> Open(g);
    }
  }

  /** In `Drop` mode the objects that reach the apply are read from the valid documents alone, in their order. */
  lemma DroppedDocumentsStayOut(kind: string, a: Answers)
    requires Prepared(Some(Validate(kind, Drop)), a).Objects?
    ensures a.input.Some?
    ensures var survivors := Survivors(Some(Validate(kind, Drop)), Pieces(a.input.value));
      Some(Prepared(Some(Validate(kind, Drop)), a).objects) == a.read(Texts(survivors))
  {
    Policies(Drop, kind, Pieces(a.input.value));
  }

  /** The text that the objects are read from, document by document; there is none if one breaks the build. */
  lemma ReadsWhatIsWritten(v: Option<Validate>, a: Answers)
    requires a.input.Some?
    ensures Output(v, a) == if InputBreaks(v, a.input.value) then None else Some(InputText(v, a.input.value))
  {
    OutputIs(v, START, a.input.value);
    assert "" + InputText(v, a.input.value) == InputText(v, a.input.value);
  }

  /**
   Why a reconciliation stops before the apply: an obstacle first, then a build that fails, then gates that cannot
   be loaded or of which one is not valid and true, and at last objects that cannot be read.
   */
  lemma StopsFor(v: Option<Validate>, a: Answers)
    ensures var built := a.input.Some? && !InputBreaks(v, a.input.value);
      var passed := a.gates.Some? && forall g :: g in a.gates.value ==> g.valid && g.result == Some(true);
      && (a.obstacle.Some? ==> Prepared(v, a) == Broken(a.obstacle.value))
      && (a.obstacle.None? && !built ==> Prepared(v, a) == Broken(BUILD_FAILED))
      && (a.obstacle.None? && built && !passed ==> Prepared(v, a) == Closed)
      && (a.obstacle.None? && built && passed ==>
            match a.read(InputText(v, a.input.value))
            case Some(objects) => Prepared(v, a) == Objects(objects)
            case None => Prepared(v, a) == Broken(BUILD_FAILED))
  {
    if a.input.Some? {
      ReadsWhatIsWritten(v, a);
    }
    if a.gates.Some? {
      assert AllOpen(a.gates.value) <==> forall g :: g in a.gates.value ==> g.valid && g.result == Some(true) by {
        assert forall g :: g in a.gates.value ==> (Open(g) <==> g.valid && g.result == Some(true));
      }
    }
  }
}
