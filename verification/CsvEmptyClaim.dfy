/**
 * A run of the service in which a claim without a packet, and without a preview
 * id, is accepted and recorded: from an upload to the claim, one event at a time.
 */
module CsvEmptyClaim {
  import opened Wrappers
  import opened HexText
  import opened CsvStage
  import opened CsvSidecar
  import opened CsvProtocol

  const FILE := [1]

  /** A digest that looks like one. */
  predicate Hexadecimal(h: Digests) { |h.content(FILE)| == 64 && LowerHex(h.content(FILE)) }

  const PLANNED := Planned("v", "[]", Payload("", "", "", ""))

  const CLAIM := ClaimInput("s", "", 2, "command", None)

  function Job(h: Digests): UploadJob { UploadJob(1, "n", "s", h.content(FILE), 1, "k") }

  function Admitted(h: Digests): Stage { NewStage("s", "n", 1, h.content(FILE), 1, "k", 0, RETENTION_MS) }

  function Mapped(h: Digests): Stage { Apply(Admitted(h), Choose("c", "x")) }

  function NameOf(h: Digests): string
  {
    PreviewName(h, Binding("s", "n", 1, h.content(FILE), 1, "c", "v", "[]"))
  }

  function Shown(h: Digests): Stage { Apply(Mapped(h), Show(NameOf(h), "")) }

  /** The service with one row, its file and its preview. */
  function With(h: Digests, row: Stage, previews: map<string, SavedPreview>): State {
    Start(0, "n").(w := Start(0, "n").w.(
      db := Db(map["s" := row], previews), disk := map[Object("k") := File(FILE, 0)],
      keys := {"k"}, owner := map["k" := "s"]))
  }

  function Uploading(h: Digests, disk: map<Name, File>, phase: UploadPhase): State {
    var s := Start(0, "n");
    State(s.w.(disk := disk, keys := {"k"}), map[0 := Upload(Job(h), phase)],
          if phase == Working then Some(0) else None)
  }

  function UploadEvents(h: Digests): seq<Event> {
    [UploadStart(0, 1, true, "s", h.content(FILE), 1, "k"), UploadChunk(0, FILE), UploadInstall(0),
     UploadWork(0, true), UploadWorked(0), UploadAdmit(0, true)]
  }

  function PreviewEvents(): seq<Event> {
    [MapBegin(0, 1, true, "s", MapInput(0, true, true, "c")), MapEnd(0, true, "x"),
     PreviewBegin(0, 1, true, "s", None), PreviewFetch(0), PreviewWork(0, true), PreviewPlan(0, PLANNED),
     PreviewEnd(0, true)]
  }

  /** The first event of a sequence, then the rest. */
  lemma AfterFirst(h: Digests, s: State, e: Event, n: State, rest: seq<Event>)
    requires Step(h, s, e) == n
    ensures After(h, s, [e] + rest) == After(h, n, rest)
  {
    hide Step;
    assert ([e] + rest)[1..] == rest;
  }

  lemma {:induction false} AfterBoth(h: Digests, s: State, first: seq<Event>, rest: seq<Event>)
    ensures After(h, s, first + rest) == After(h, After(h, s, first), rest)
    decreases |first|
  {
    hide Step;
    if first == [] {
      assert first + rest == rest;
    } else {
      assert (first + rest)[1..] == first[1..] + rest;
      AfterBoth(h, Step(h, s, first[0]), first[1..], rest);
    }
  }

  lemma Received(h: Digests)
    requires Hexadecimal(h)
    ensures Step(h, Start(0, "n"), UploadEvents(h)[0]) == Uploading(h, map[Part("k") := File([], 0)], Receiving)
    ensures Step(h, Uploading(h, map[Part("k") := File([], 0)], Receiving), UploadChunk(0, FILE))
      == Uploading(h, map[Part("k") := File(FILE, 0)], Receiving)
  {
    assert [] + FILE == FILE;
  }

  lemma Installing(h: Digests)
    requires Hexadecimal(h)
    ensures Step(h, Uploading(h, map[Part("k") := File(FILE, 0)], Receiving), UploadInstall(0))
      == Uploading(h, map[Object("k") := File(FILE, 0)], Stored)
  {
    assert map[Part("k") := File(FILE, 0)] - {Part("k")} == map[];
  }

  lemma Inspecting(h: Digests)
    ensures var disk := map[Object("k") := File(FILE, 0)];
      && Step(h, Uploading(h, disk, Stored), UploadWork(0, true)) == Uploading(h, disk, Working)
      && Step(h, Uploading(h, disk, Working), UploadWorked(0)) == Uploading(h, disk, Inspected)
  {
  }

  lemma Admitting(h: Digests)
    ensures var disk := map[Object("k") := File(FILE, 0)];
      Step(h, Uploading(h, disk, Inspected), UploadAdmit(0, true)) == With(h, Admitted(h), map[])
  {
    var disk := map[Object("k") := File(FILE, 0)];
    var s := Uploading(h, disk, Inspected);
    assert s.tasks - {0} == map[];
    assert map["s" := Admitted(h)] == s.w.db.stages["s" := Admitted(h)];
  }

  lemma Uploaded(h: Digests)
    requires Hexadecimal(h)
    ensures After(h, Start(0, "n"), UploadEvents(h)) == With(h, Admitted(h), map[])
  {
    hide Step;
    Received(h);
    Installing(h);
    Inspecting(h);
    Admitting(h);
    var e := UploadEvents(h);
    var part, whole := map[Part("k") := File([], 0)], map[Part("k") := File(FILE, 0)];
    var disk := map[Object("k") := File(FILE, 0)];
    assert e == [e[0]] + ([e[1]] + ([e[2]] + ([e[3]] + ([e[4]] + ([e[5]] + [])))));
    AfterFirst(h, Start(0, "n"), e[0], Uploading(h, part, Receiving),
               [e[1]] + ([e[2]] + ([e[3]] + ([e[4]] + ([e[5]] + [])))));
    AfterFirst(h, Uploading(h, part, Receiving), e[1], Uploading(h, whole, Receiving),
               [e[2]] + ([e[3]] + ([e[4]] + ([e[5]] + []))));
    AfterFirst(h, Uploading(h, whole, Receiving), e[2], Uploading(h, disk, Stored), [e[3]] + ([e[4]] + ([e[5]] + [])));
    AfterFirst(h, Uploading(h, disk, Stored), e[3], Uploading(h, disk, Working), [e[4]] + ([e[5]] + []));
    AfterFirst(h, Uploading(h, disk, Working), e[4], Uploading(h, disk, Inspected), [e[5]] + []);
    AfterFirst(h, Uploading(h, disk, Inspected), e[5], With(h, Admitted(h), map[]), []);
  }

  /** The service with one command in flight. */
  function Busy(s: State, task: Task): State {
    s.(tasks := map[0 := task], working := if task.PreviewWorking? then Some(0) else None)
  }

  lemma MappingSteps(h: Digests)
    ensures Step(h, With(h, Admitted(h), map[]), PreviewEvents()[0])
      == Busy(With(h, Admitted(h), map[]), Mapping(1, Admitted(h), "c"))
    ensures Step(h, Busy(With(h, Admitted(h), map[]), Mapping(1, Admitted(h), "c")), MapEnd(0, true, "x"))
      == With(h, Mapped(h), map[])
  {
    var s := Busy(With(h, Admitted(h), map[]), Mapping(1, Admitted(h), "c"));
    assert s.tasks - {0} == map[];
    assert map["s" := Mapped(h)] == s.w.db.stages["s" := Mapped(h)];
  }

  function Previews(h: Digests): map<string, SavedPreview> {
    map[NameOf(h) := SavedPreview(NameOf(h), "s", 1, Binding("s", "n", 1, h.content(FILE), 1, "c", "v", "[]"),
                                  Payload("", "", "", ""))]
  }

  lemma PreviewStarts(h: Digests)
    ensures var s := With(h, Mapped(h), map[]);
      Step(h, s, PreviewBegin(0, 1, true, "s", None)) == Busy(s, PreviewReading(1, Mapped(h)))
  {
  }

  lemma PreviewReads(h: Digests)
    ensures var s := With(h, Mapped(h), map[]);
      && Step(h, Busy(s, PreviewReading(1, Mapped(h))), PreviewFetch(0))
         == Busy(s, PreviewFetched(1, Mapped(h), Some(FILE)))
  {
  }

  lemma PreviewWorks(h: Digests)
    ensures var s := With(h, Mapped(h), map[]);
      && Step(h, Busy(s, PreviewFetched(1, Mapped(h), Some(FILE))), PreviewWork(0, true))
         == Busy(s, PreviewWorking(1, Mapped(h)))
  {
  }

  lemma PreviewPlans(h: Digests)
    ensures var s := With(h, Mapped(h), map[]);
      Step(h, Busy(s, PreviewWorking(1, Mapped(h))), PreviewPlan(0, PLANNED))
        == Busy(s, PreviewPlanned(1, Mapped(h), PLANNED))
  {
  }

  lemma ShowIsStored(h: Digests)
    ensures PreviewCommit(Db(map["s" := Mapped(h)], map[]), Env(0, "n", true), h, 1, Mapped(h), PLANNED)
      == Ok(Db(map["s" := Shown(h)], Previews(h)))
  {
    var db := Db(map["s" := Mapped(h)], map[]);
    assert map["s" := Shown(h)] == db.stages["s" := Shown(h)];
    assert BindingOf(Mapped(h), PLANNED) == Binding("s", "n", 1, h.content(FILE), 1, "c", "v", "[]");
    assert Previews(h) == map[][NameOf(h) := Previews(h)[NameOf(h)]];
  }

  lemma PreviewEnds(h: Digests, s: State)
    ensures Step(h, s, PreviewEnd(0, true)) == EndPreview(s, h, 0, true)
  {
    hide EndPreview;
  }

  lemma Showing(h: Digests)
    ensures Step(h, Busy(With(h, Mapped(h), map[]), PreviewPlanned(1, Mapped(h), PLANNED)), PreviewEnd(0, true))
      == With(h, Shown(h), Previews(h))
  {
    hide Step;
    var s := Busy(With(h, Mapped(h), map[]), PreviewPlanned(1, Mapped(h), PLANNED));
    PreviewEnds(h, s);
    assert s.tasks - {0} == map[];
    ShowIsStored(h);
    hide PreviewCommit, Shown, Previews;
  }

  lemma Previewing(h: Digests)
    ensures After(h, With(h, Admitted(h), map[]), PreviewEvents()) == With(h, Shown(h), Previews(h))
  {
    hide Step;
    MappingSteps(h);
    PreviewStarts(h);
    PreviewReads(h);
    PreviewWorks(h);
    PreviewPlans(h);
    Showing(h);
    var e := PreviewEvents();
    var s, m := With(h, Admitted(h), map[]), With(h, Mapped(h), map[]);
    assert e == [e[0]] + ([e[1]] + ([e[2]] + ([e[3]] + ([e[4]] + ([e[5]] + ([e[6]] + []))))));
    AfterFirst(h, s, e[0], Busy(s, Mapping(1, Admitted(h), "c")),
               [e[1]] + ([e[2]] + ([e[3]] + ([e[4]] + ([e[5]] + ([e[6]] + []))))));
    AfterFirst(h, Busy(s, Mapping(1, Admitted(h), "c")), e[1], m,
               [e[2]] + ([e[3]] + ([e[4]] + ([e[5]] + ([e[6]] + [])))));
    AfterFirst(h, m, e[2], Busy(m, PreviewReading(1, Mapped(h))), [e[3]] + ([e[4]] + ([e[5]] + ([e[6]] + []))));
    AfterFirst(h, Busy(m, PreviewReading(1, Mapped(h))), e[3], Busy(m, PreviewFetched(1, Mapped(h), Some(FILE))),
               [e[4]] + ([e[5]] + ([e[6]] + [])));
    AfterFirst(h, Busy(m, PreviewFetched(1, Mapped(h), Some(FILE))), e[4], Busy(m, PreviewWorking(1, Mapped(h))),
               [e[5]] + ([e[6]] + []));
    AfterFirst(h, Busy(m, PreviewWorking(1, Mapped(h))), e[5], Busy(m, PreviewPlanned(1, Mapped(h), PLANNED)),
               [e[6]] + []);
    AfterFirst(h, Busy(m, PreviewPlanned(1, Mapped(h), PLANNED)), e[6], With(h, Shown(h), Previews(h)), []);
  }

  lemma ClaimIsAccepted(h: Digests)
    ensures var db := Db(map["s" := Shown(h)], Previews(h));
      Claim(db, Env(0, "n", true), 1, CLAIM, true) ==
        Ok(Claimed(db.(stages := map["s" := Apply(Shown(h), Confirm("command", "", None))]), 3))
  {
    var db := Db(map["s" := Shown(h)], Previews(h));
    assert NameOf(h)[0] == 'p';
    assert Saved(db, Shown(h), Some("")).Ok?;
    assert db.stages["s" := Apply(Shown(h), Confirm("command", "", None))]
        == map["s" := Apply(Shown(h), Confirm("command", "", None))];
  }

  lemma Claiming(h: Digests)
    ensures Step(h, With(h, Shown(h), Previews(h)), ClaimStage(1, true, CLAIM, true)).w.db.stages
      == map["s" := Apply(Shown(h), Confirm("command", "", None))]
  {
    hide Claim, Shown;
    ClaimIsAccepted(h);
  }

  /** From nothing, fourteen events lead to a stage confirmed under the empty preview id. */
  lemma EmptyPreviewClaimIsAccepted(h: Digests)
    requires Hexadecimal(h)
    ensures var row := After(h, Start(0, "n"),
                             UploadEvents(h) + PreviewEvents() + [ClaimStage(1, true, CLAIM, true)]).w.db.stages;
      && "s" in row && row["s"].status == Confirmed && row["s"].command == Some("command")
      && row["s"].confirmedPreview == Some("") && row["s"].previewId == Some(NameOf(h)) && NameOf(h) != ""
  {
    hide Step;
    Uploaded(h);
    Previewing(h);
    Claiming(h);
    var claim := ClaimStage(1, true, CLAIM, true);
    AfterBoth(h, Start(0, "n"), UploadEvents(h) + PreviewEvents(), [claim]);
    AfterBoth(h, Start(0, "n"), UploadEvents(h), PreviewEvents());
    var s := With(h, Shown(h), Previews(h));
    assert [claim] == [claim] + [];
    AfterFirst(h, s, claim, Step(h, s, claim), []);
    assert NameOf(h)[0] == 'p';
  }
}
