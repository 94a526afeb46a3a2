/** The video stage driver (robots/videoffmpeg.js): convert every sentence's
    downloaded image, render every sentence's caption image, make the
    thumbnail, save the render script, run the renderer and save the content.
    The image compositor (`gm`) and the renderer process are parameters:
    the compositor is a total function from a write request to its outcome,
    and the renderer is described by whether it ever closes. The driver's
    effects are returned as the ordered list of requests it makes. */
module VideoRobot {
  import opened Outcomes
  import opened Strings
  import opened ContentState

  // ---------------------------------------------------------------------
  // The caption template table
  // ---------------------------------------------------------------------

  /** Caption box size and text placement. */
  datatype Template = Template(size: string, gravity: string)

  /** `templateSettings`: one entry per index from 0 to 6. */
  const TemplateSettings: map<nat, Template> := map[
    0 := Template("1920x400", "center"),
    1 := Template("1920x1080", "center"),
    2 := Template("800x1080", "west"),
    3 := Template("1920x400", "center"),
    4 := Template("1920x1080", "center"),
    5 := Template("800x1080", "west"),
    6 := Template("1920x400", "center")]

  /** The three caption layouts the table cycles through: a banner, a full
      frame and a left column. */
  function LayoutCycle(phase: nat): Template
    requires phase < 3
  {
    if phase == 0 then Template("1920x400", "center")
    else if phase == 1 then Template("1920x1080", "center")
    else Template("800x1080", "west")
  }

  /** `templateSettings[sentenceIndex]`: defined exactly for 0 to 6, and
      every entry is the layout of its index modulo 3. */
  function TemplateFor(index: nat): (t: Option<Template>)
    ensures t.Some? <==> index <= 6
    ensures t.Some? ==> t.value == LayoutCycle(index % 3)
  {
    if index in TemplateSettings then Some(TemplateSettings[index]) else None
  }

  // ---------------------------------------------------------------------
  // Compositor requests
  // ---------------------------------------------------------------------

  /** One compositor write: its input, its output file and the options that
      matter to the driver. Pixel operations are not modelled. */
  datatype ImageJob =
    | Convert(input: string, output: string, width: nat, height: nat)
    | Caption(output: string, text: string, size: string, gravity: string,
              background: string, fill: string, kerning: int)
    | Thumbnail(input: string, output: string)

  /** The requests of a run, in the order they are made. */
  datatype Event =
    | Compose(job: ImageJob)
    | SaveScript(doc: Document)
    | Spawn(executable: string, arguments: seq<string>)
    | SaveState(doc: Document)

  /** The compositor: the outcome of one write. */
  type Compositor = ImageJob -> Outcome

  /** `./content/${index}<suffix>`: a file in `./content/` whose name is the
      index's numeral followed by the suffix. */
  function IndexedPath(index: nat, suffix: string): (r: string)
    ensures "./content/" <= r && |r| > 10 + |suffix|
  {
    "./content/" + NatToString(index) + suffix
  }

  /** convertImage(index): fit the original onto a 1920x1080 frame. */
  function ConversionJob(index: nat): (r: ImageJob)
    ensures r.Convert? && r.width == 1920 && r.height == 1080
    ensures r.output == IndexedPath(index, "-converted.png") && r.input != r.output
  {
    Convert(IndexedPath(index, "-original.png[0]"), IndexedPath(index, "-converted.png"), 1920, 1080)
  }

  /** createSentenceImage(index, text): the caption write for an index the
      table knows; for any other index reading the table entry throws before
      any write is made, and the step rejects. */
  function CaptionJob(index: nat, text: string): (r: Result<ImageJob>)
    ensures r.Ok? <==> index <= 6
    ensures r.Err? ==> r.error == TemplateNotFound(index)
    ensures r.Ok? ==> var layout := LayoutCycle(index % 3);
      r.value == Caption(IndexedPath(index, "-sentence.png"), text, layout.size, layout.gravity,
                         "transparent", "white", -1)
  {
    match TemplateFor(index)
    case None => Err(TemplateNotFound(index))
    case Some(t) => Ok(Caption(IndexedPath(index, "-sentence.png"), text, t.size, t.gravity, "transparent", "white", -1))
  }

  /** createYouTubeThumbnail: a copy of the first converted image. */
  const ThumbnailJob: ImageJob := Thumbnail("./content/0-converted.png", "./content/youtube-thumbnail.jpg")

  /** Two paths with the same suffix are equal only for the same index. */
  lemma IndexedPathInjective(i: nat, j: nat, suffix: string)
    requires IndexedPath(i, suffix) == IndexedPath(j, suffix)
    ensures i == j
  {
    var a, b := NatToString(i), NatToString(j);
    var prefix := "./content/";
    assert prefix + a + suffix == prefix + (a + suffix);
    assert prefix + b + suffix == prefix + (b + suffix);
    assert a + suffix == (prefix + (a + suffix))[|prefix|..];
    assert b + suffix == (prefix + (b + suffix))[|prefix|..];
    assert |a| == |b|;
    assert a == (a + suffix)[..|a|];
    assert b == (b + suffix)[..|b|];
    NatToStringInjective(i, j);
  }

  /** Different sentence indices convert into different files, and caption
      into different files. */
  lemma OutputsDistinct(i: nat, j: nat)
    requires i != j
    ensures ConversionJob(i).output != ConversionJob(j).output
    ensures IndexedPath(i, "-sentence.png") != IndexedPath(j, "-sentence.png")
  {
    if ConversionJob(i).output == ConversionJob(j).output {
      IndexedPathInjective(i, j, "-converted.png");
    }
    if IndexedPath(i, "-sentence.png") == IndexedPath(j, "-sentence.png") {
      IndexedPathInjective(i, j, "-sentence.png");
    }
  }

  /** A caption never overwrites a converted image. */
  lemma CaptionAvoidsConvertedImages(i: nat, j: nat)
    ensures IndexedPath(i, "-sentence.png") != ConversionJob(j).output
  {
    var s, t := IndexedPath(i, "-sentence.png"), ConversionJob(j).output;
    assert s[|s| - 5] == 'e';
    assert t[|t| - 5] == 'd';
  }

  /** The thumbnail reads the file the conversion of sentence 0 writes. */
  lemma ThumbnailReadsFirstConversion()
    ensures ThumbnailJob.input == ConversionJob(0).output
  {
    assert NatToString(0) == "0";
  }

  // ---------------------------------------------------------------------
  // A sequence of awaited writes
  // ---------------------------------------------------------------------

  /** How a group of writes settles and the requests it makes. */
  datatype Stage = Stage(outcome: Outcome, events: seq<Event>)

  /** The outcome of one step: a step that could not be built rejects with
      its error; otherwise the compositor decides. */
  function StepOutcome(step: Result<ImageJob>, gm: Compositor): Outcome {
    match step
    case Err(e) => Fail(e)
    case Ok(job) => gm(job)
  }

  /** Awaiting the steps one after the other: each built step is requested
      and awaited; the first rejection stops the group. */
  function RunJobs(steps: seq<Result<ImageJob>>, gm: Compositor): (r: Stage)
    ensures |r.events| <= |steps|
    ensures r.outcome.Pass? ==> |r.events| == |steps|
    decreases |steps|
  {
    if steps == [] then Stage(Pass, [])
    else match steps[0]
      case Err(e) => Stage(Fail(e), [])
      case Ok(job) =>
        if gm(job).Fail? then Stage(gm(job), [Compose(job)])
        else
          var rest := RunJobs(steps[1..], gm);
          Stage(rest.outcome, [Compose(job)] + rest.events)
  }

  /** The index of the first step that rejects, or the number of steps. */
  function FirstFailure(steps: seq<Result<ImageJob>>, gm: Compositor): (f: nat)
    ensures f <= |steps|
    ensures forall k :: 0 <= k < f ==> StepOutcome(steps[k], gm).Pass?
    ensures f < |steps| ==> StepOutcome(steps[f], gm).Fail?
    decreases |steps|
  {
    if steps == [] || StepOutcome(steps[0], gm).Fail? then 0
    else 1 + FirstFailure(steps[1..], gm)
  }

  /** A group passes exactly when every step passes, and otherwise fails
      with the reason of its first failing step. */
  lemma {:induction false} RunJobsOutcome(steps: seq<Result<ImageJob>>, gm: Compositor)
    ensures var f := FirstFailure(steps, gm);
      RunJobs(steps, gm).outcome == if f == |steps| then Pass else StepOutcome(steps[f], gm)
    decreases |steps|
  {
    if steps != [] && StepOutcome(steps[0], gm).Pass? {
      RunJobsOutcome(steps[1..], gm);
      assert steps[1..][FirstFailure(steps[1..], gm)..] == steps[FirstFailure(steps, gm)..];
    }
  }

  /** A group requests its steps in order, from the first up to the first
      failing one, which is requested only when it could be built. */
  lemma {:induction false} RunJobsEvents(steps: seq<Result<ImageJob>>, gm: Compositor)
    ensures var e, f := RunJobs(steps, gm).events, FirstFailure(steps, gm);
      && |e| == (if f < |steps| && steps[f].Ok? then f + 1 else f)
      && (forall k :: 0 <= k < |e| ==> steps[k].Ok? && e[k] == Compose(steps[k].value))
    decreases |steps|
  {
    if steps != [] && StepOutcome(steps[0], gm).Pass? {
      RunJobsEvents(steps[1..], gm);
      var rest := RunJobs(steps[1..], gm).events;
      var e := RunJobs(steps, gm).events;
      assert e == [Compose(steps[0].value)] + rest;
      forall k | 1 <= k < |e|
        ensures e[k] == rest[k - 1] && steps[k] == steps[1..][k - 1]
      {
      }
    }
  }

  /** One step of a group: the group from `i` is step `i` followed, when it
      passes, by the group from `i + 1`. */
  lemma RunJobsStep(steps: seq<Result<ImageJob>>, i: nat, gm: Compositor)
    requires i < |steps|
    ensures var here, next := RunJobs(steps[i..], gm), RunJobs(steps[i + 1..], gm);
      here == match steps[i]
        case Err(e) => Stage(Fail(e), [])
        case Ok(job) =>
          if gm(job).Fail? then Stage(gm(job), [Compose(job)])
          else Stage(next.outcome, [Compose(job)] + next.events)
  {
    assert steps[i..][0] == steps[i];
    assert steps[i..][1..] == steps[i + 1..];
  }

  /** A step that could not be built ends the group from `i` at once. */
  lemma RunJobsRefused(steps: seq<Result<ImageJob>>, i: nat, gm: Compositor)
    requires i < |steps| && steps[i].Err?
    ensures RunJobs(steps[i..], gm) == Stage(Fail(steps[i].error), [])
  {
    RunJobsStep(steps, i, gm);
  }

  /** A write the compositor rejects ends the group from `i` after its
      request. */
  lemma RunJobsRejected(steps: seq<Result<ImageJob>>, i: nat, gm: Compositor)
    requires i < |steps| && steps[i].Ok? && gm(steps[i].value).Fail?
    ensures RunJobs(steps[i..], gm) == Stage(gm(steps[i].value), [Compose(steps[i].value)])
  {
    RunJobsStep(steps, i, gm);
  }

  /** A write the compositor accepts is followed by the group from `i + 1`. */
  lemma RunJobsAccepted(steps: seq<Result<ImageJob>>, i: nat, gm: Compositor)
    requires i < |steps| && steps[i].Ok? && gm(steps[i].value).Pass?
    ensures RunJobs(steps[i..], gm).outcome == RunJobs(steps[i + 1..], gm).outcome
    ensures RunJobs(steps[i..], gm).events == [Compose(steps[i].value)] + RunJobs(steps[i + 1..], gm).events
  {
    RunJobsStep(steps, i, gm);
  }

  /** An empty group passes without requests. */
  lemma RunJobsEmpty(steps: seq<Result<ImageJob>>, gm: Compositor)
    requires steps == []
    ensures RunJobs(steps, gm) == Stage(Pass, [])
  {
  }

  /** The conversion steps for `count` sentences. */
  function ConversionSteps(count: nat): (steps: seq<Result<ImageJob>>)
    ensures |steps| == count
  {
    seq(count, i requires 0 <= i => Ok(ConversionJob(i)))
  }

  /** The caption steps for the sentence list. */
  function CaptionSteps(sentences: seq<Sentence>): (steps: seq<Result<ImageJob>>)
    ensures |steps| == |sentences|
  {
    seq(|sentences|, i requires 0 <= i < |sentences| => CaptionJob(i, sentences[i].text))
  }

  // ---------------------------------------------------------------------
  // The stages
  // ---------------------------------------------------------------------

  /** convertAllImages: one conversion per sentence index, in increasing
      order, each awaited before the next. */
  method ConvertAllImages(c: Content, gm: Compositor) returns (outcome: Outcome, events: seq<Event>)
    ensures RunJobs(ConversionSteps(|c.sentences|), gm) == Stage(outcome, events)
  {
    ghost var steps := ConversionSteps(|c.sentences|);
    ghost var whole := RunJobs(steps, gm);
    events := [];
    var i := 0;
    assert steps[0..] == steps;
    while i < |c.sentences|
      invariant 0 <= i <= |c.sentences| == |steps|
      invariant whole.outcome == RunJobs(steps[i..], gm).outcome
      invariant whole.events == events + RunJobs(steps[i..], gm).events
    {
      var job := ConversionJob(i);
      assert steps[i] == Ok(job);
      events := events + [Compose(job)];
      outcome := gm(job);
      if outcome.Fail? {
        RunJobsRejected(steps, i, gm);
        return;
      }
      RunJobsAccepted(steps, i, gm);
      i := i + 1;
    }
    RunJobsEmpty(steps[i..], gm);
    outcome := Pass;
  }

  /** createAllSentenceImages: one caption per sentence index, in increasing
      order, each awaited before the next. */
  method CreateAllSentenceImages(c: Content, gm: Compositor) returns (outcome: Outcome, events: seq<Event>)
    ensures RunJobs(CaptionSteps(c.sentences), gm) == Stage(outcome, events)
  {
    var sentences := c.sentences;
    ghost var steps := CaptionSteps(sentences);
    ghost var whole := RunJobs(steps, gm);
    events := [];
    var i := 0;
    assert steps[0..] == steps;
    while i < |sentences|
      invariant 0 <= i <= |sentences| == |steps|
      invariant whole.outcome == RunJobs(steps[i..], gm).outcome
      invariant whole.events == events + RunJobs(steps[i..], gm).events
    {
      var step := CaptionJob(i, sentences[i].text);
      assert steps[i] == step;
      if step.Err? {
        RunJobsRefused(steps, i, gm);
        return Fail(step.error), events;
      }
      events := events + [Compose(step.value)];
      outcome := gm(step.value);
      if outcome.Fail? {
        RunJobsRejected(steps, i, gm);
        return;
      }
      RunJobsAccepted(steps, i, gm);
      i := i + 1;
    }
    RunJobsEmpty(steps[i..], gm);
    outcome := Pass;
  }

  /** createYouTubeThumbnail */
  method CreateYouTubeThumbnail(gm: Compositor) returns (outcome: Outcome, event: Event)
    ensures event.Compose? && event.job.Thumbnail?
    ensures event.job.input == ConversionJob(0).output
    ensures event.job.output == "./content/youtube-thumbnail.jpg"
    ensures outcome == gm(event.job)
  {
    ThumbnailReadsFirstConversion();
    event := Compose(ThumbnailJob);
    outcome := gm(ThumbnailJob);
  }

  /** createFFmpeg: hand the content to the render script writer. */
  method CreateFFmpeg(c: Content) returns (event: Event)
    ensures event == SaveScript(c.Snapshot())
  {
    event := SaveScript(c.Snapshot());
  }

  /** The renderer executable. */
  const AerenderPath: string := "/Applications/ffmpeg/aerender"

  /** The renderer's fixed arguments below the project root. */
  function RenderArguments(rootPath: string): (r: seq<string>)
    ensures |r| == 6 && r[2] == "-project" && r[4] == "-output"
    ensures rootPath <= r[3] && rootPath <= r[5] && r[3] != r[5]
  {
    ["-comp", "main",
     "-project", rootPath + "/templates/1/template.aep",
     "-output", rootPath + "/content/output.mov"]
  }

  /** How a promise ends up: still waiting, fulfilled, or rejected. */
  datatype Settlement = Pending | Resolved | Rejected(error: Error)

  /** renderVideoWithFFmpeg: start the renderer and resolve when it closes.
      `close` is the exit code of the process, or None when it never closes. */
  method RenderVideoWithFFmpeg(rootPath: string, close: Option<int>) returns (settlement: Settlement, event: Event)
    ensures event == Spawn(AerenderPath, RenderArguments(rootPath))
    ensures settlement == if close.Some? then Resolved else Pending
  {
    event := Spawn(AerenderPath, RenderArguments(rootPath));
    settlement := Pending;
    if close.Some? {
      settlement := Resolved;
    }
  }

  // ---------------------------------------------------------------------
  // The driver
  // ---------------------------------------------------------------------

  /** How a run settles and the requests it makes, in order. */
  datatype VideoRunResult = VideoRunResult(settlement: Settlement, events: seq<Event>)

  /** The run from the thumbnail on, after every image stage passed. */
  function FinishVideo(doc: Document, rootPath: string, gm: Compositor, close: Option<int>, prior: seq<Event>): (r: VideoRunResult)
    ensures r.settlement.Resolved? <==> gm(ThumbnailJob).Pass? && close.Some?
    ensures r.settlement.Rejected? <==> gm(ThumbnailJob).Fail?
    ensures r.settlement.Rejected? ==> r.settlement.error == gm(ThumbnailJob).error
  {
    var thumbnailed := prior + [Compose(ThumbnailJob)];
    if gm(ThumbnailJob).Fail? then VideoRunResult(Rejected(gm(ThumbnailJob).error), thumbnailed)
    else
      var spawned := thumbnailed + [SaveScript(doc), Spawn(AerenderPath, RenderArguments(rootPath))];
      if close.None? then VideoRunResult(Pending, spawned)
      else VideoRunResult(Resolved, spawned + [SaveState(doc)])
  }

  /** The video stage as a function of the loaded document, the project
      root, the compositor and the renderer: conversions, captions,
      thumbnail, script, render, save; the first rejection ends the run. */
  function VideoRun(doc: Document, rootPath: string, gm: Compositor, close: Option<int>): (r: VideoRunResult)
    ensures r.settlement.Pending? ==> close.None?
    ensures r.settlement.Resolved? ==> close.Some?
  {
    var conversions := RunJobs(ConversionSteps(|doc.sentences|), gm);
    if conversions.outcome.Fail? then VideoRunResult(Rejected(conversions.outcome.error), conversions.events)
    else
      var captions := RunJobs(CaptionSteps(doc.sentences), gm);
      if captions.outcome.Fail? then VideoRunResult(Rejected(captions.outcome.error), conversions.events + captions.events)
      else FinishVideo(doc, rootPath, gm, close, conversions.events + captions.events)
  }

  /** robot(): load the stored document and run the stages in their fixed
      order; the content is saved, as loaded, once the renderer closes. */
  method Run(stored: Document, rootPath: string, gm: Compositor, close: Option<int>)
    returns (settlement: Settlement, events: seq<Event>)
    ensures VideoRun(stored, rootPath, gm, close) == VideoRunResult(settlement, events)
  {
    var content := new Content.Load(stored);
    var outcome, stageEvents := ConvertAllImages(content, gm);
    events := stageEvents;
    if outcome.Fail? {
      return Rejected(outcome.error), events;
    }
    outcome, stageEvents := CreateAllSentenceImages(content, gm);
    events := events + stageEvents;
    if outcome.Fail? {
      return Rejected(outcome.error), events;
    }
    var event;
    outcome, event := CreateYouTubeThumbnail(gm);
    ThumbnailReadsFirstConversion();
    events := events + [event];
    if outcome.Fail? {
      return Rejected(outcome.error), events;
    }
    event := CreateFFmpeg(content);
    events := events + [event];
    settlement, event := RenderVideoWithFFmpeg(rootPath, close);
    events := events + [event];
    if settlement.Pending? {
      return;
    }
    events := events + [SaveState(content.Snapshot())];
  }

  // ---------------------------------------------------------------------
  // Properties of a run
  // ---------------------------------------------------------------------

  /** The number of caption images a run can request: one per sentence, up
      to the size of the template table. */
  function CaptionCount(sentences: seq<Sentence>): (n: nat)
    ensures n <= 7 && n <= |sentences|
    ensures |sentences| <= 7 ==> n == |sentences|
  {
    if |sentences| <= 7 then |sentences| else 7
  }

  /** The conversion requests for `count` sentences, index by index. */
  function ConversionEvents(count: nat): seq<Event> {
    seq(count, k requires 0 <= k => Compose(ConversionJob(k)))
  }

  /** The caption requests for the sentences the table has a template for. */
  function CaptionEvents(sentences: seq<Sentence>): seq<Event> {
    seq(CaptionCount(sentences), k requires 0 <= k < CaptionCount(sentences) =>
      Compose(CaptionJob(k, sentences[k].text).value))
  }

  /** The requests after the image stages, when all of them succeed. */
  function ClosingEvents(doc: Document, rootPath: string): seq<Event> {
    [Compose(ThumbnailJob), SaveScript(doc), Spawn(AerenderPath, RenderArguments(rootPath)), SaveState(doc)]
  }

  /** The trace of a run in which every request succeeds. */
  function PlannedEvents(doc: Document, rootPath: string): (r: seq<Event>)
    ensures |r| == |doc.sentences| + CaptionCount(doc.sentences) + 4
    ensures r[|r| - 1] == SaveState(doc)
  {
    ConversionEvents(|doc.sentences|) + CaptionEvents(doc.sentences) + ClosingEvents(doc, rootPath)
  }

  /** Every image write of a run succeeds: the table covers every sentence,
      and the compositor accepts every conversion, caption and the
      thumbnail. */
  predicate ImagesPass(doc: Document, gm: Compositor) {
    ImageStagesPass(doc, gm) && gm(ThumbnailJob).Pass?
  }

  /** The conversion and caption stages pass: the table covers every
      sentence, and the compositor accepts every conversion and caption. */
  predicate ImageStagesPass(doc: Document, gm: Compositor) {
    && |doc.sentences| <= 7
    && (forall k :: 0 <= k < |doc.sentences| ==> gm(ConversionJob(k)).Pass?)
    && (forall k :: 0 <= k < |doc.sentences| ==> gm(CaptionJob(k, doc.sentences[k].text).value).Pass?)
  }

  /** The conversions follow the plan up to the first rejection, and pass
      exactly when the compositor accepts all of them. */
  lemma ConversionsFollowPlan(count: nat, gm: Compositor)
    ensures var stage := RunJobs(ConversionSteps(count), gm);
      && stage.events <= ConversionEvents(count)
      && (stage.outcome.Pass? <==> forall k :: 0 <= k < count ==> gm(ConversionJob(k)).Pass?)
      && (stage.outcome.Pass? ==> stage.events == ConversionEvents(count))
  {
    var steps := ConversionSteps(count);
    var stage := RunJobs(steps, gm);
    var planned := ConversionEvents(count);
    RunJobsEvents(steps, gm);
    RunJobsOutcome(steps, gm);
    var f := FirstFailure(steps, gm);
    forall k | 0 <= k < count ensures StepOutcome(steps[k], gm) == gm(ConversionJob(k)) { }
    forall k | 0 <= k < |stage.events| ensures stage.events[k] == planned[k] { }
    assert stage.events == planned[..|stage.events|];
    if f < count {
      assert !gm(ConversionJob(f)).Pass?;
    }
  }

  /** The captions follow the plan up to the first rejection, and pass
      exactly when the table covers every sentence and the compositor
      accepts every caption. */
  lemma CaptionsFollowPlan(sentences: seq<Sentence>, gm: Compositor)
    ensures var stage := RunJobs(CaptionSteps(sentences), gm);
      && stage.events <= CaptionEvents(sentences)
      && (stage.outcome.Pass? <==>
            && |sentences| <= 7
            && forall k :: 0 <= k < |sentences| ==> gm(CaptionJob(k, sentences[k].text).value).Pass?)
      && (stage.outcome.Pass? ==> stage.events == CaptionEvents(sentences))
  {
    var steps := CaptionSteps(sentences);
    var stage := RunJobs(steps, gm);
    var planned := CaptionEvents(sentences);
    RunJobsEvents(steps, gm);
    RunJobsOutcome(steps, gm);
    var f := FirstFailure(steps, gm);
    if |sentences| > 7 {
      assert StepOutcome(steps[7], gm).Fail?;
      assert f <= 7;
    }
    forall k | 0 <= k < |sentences| && k <= 6
      ensures StepOutcome(steps[k], gm) == gm(CaptionJob(k, sentences[k].text).value)
    {
    }
    forall k | 0 <= k < |stage.events| ensures stage.events[k] == planned[k] { }
    assert stage.events == planned[..|stage.events|];
  }

  /** A document with more sentences than the table has entries never gets
      past the captions; when the earlier writes all succeed the reason is
      the missing template for index 7. */
  lemma CaptionsStopAtEight(sentences: seq<Sentence>, gm: Compositor)
    requires |sentences| > 7
    ensures RunJobs(CaptionSteps(sentences), gm).outcome.Fail?
    ensures (forall k :: 0 <= k < 7 ==> gm(CaptionJob(k, sentences[k].text).value).Pass?) ==>
      RunJobs(CaptionSteps(sentences), gm).outcome == Fail(TemplateNotFound(7))
  {
    var steps := CaptionSteps(sentences);
    RunJobsOutcome(steps, gm);
    var f := FirstFailure(steps, gm);
    assert steps[7].Err?;
    if forall k :: 0 <= k < 7 ==> gm(CaptionJob(k, sentences[k].text).value).Pass? {
      assert f == 7;
    }
  }

  /** Prefixes extend through concatenation. */
  lemma PrefixOfConcat<T>(a: seq<T>, b: seq<T>, c: seq<T>)
    requires a <= b
    ensures a <= b + c
  {
    assert (b + c)[..|a|] == b[..|a|];
  }

  /** A common front keeps a prefix a prefix. */
  lemma PrefixAfterCommonFront<T>(front: seq<T>, b: seq<T>, c: seq<T>)
    requires b <= c
    ensures front + b <= front + c
  {
    assert (front + c)[..|front| + |b|] == front + c[..|b|];
  }

  /** A run settles in one of three ways: it rejects exactly when some image
      write fails (more than seven sentences included), it stays pending
      when the renderer never closes, and it resolves otherwise, whatever
      the exit code. */
  lemma VideoRunSettlement(doc: Document, rootPath: string, gm: Compositor, close: Option<int>)
    ensures var r := VideoRun(doc, rootPath, gm, close);
      && (r.settlement.Rejected? <==> !ImagesPass(doc, gm))
      && (r.settlement == Pending <==> ImagesPass(doc, gm) && close.None?)
      && (r.settlement == Resolved <==> ImagesPass(doc, gm) && close.Some?)
  {
    ConversionsFollowPlan(|doc.sentences|, gm);
    CaptionsFollowPlan(doc.sentences, gm);
  }

  /** From the thumbnail on, a run follows the closing requests: it stops
      after the thumbnail when that write fails, before the state save when
      the renderer never closes, and makes all of them otherwise. */
  lemma FinishFollowsPlan(doc: Document, rootPath: string, gm: Compositor, close: Option<int>, prior: seq<Event>)
    ensures var r, closing := FinishVideo(doc, rootPath, gm, close, prior), ClosingEvents(doc, rootPath);
      && r.events <= prior + closing
      && (r.settlement == Resolved ==> r.events == prior + closing)
      && (r.settlement == Pending ==> r.events == prior + closing[..3])
      && (r.settlement.Rejected? ==> r.events == prior + closing[..1])
  {
    var r, closing := FinishVideo(doc, rootPath, gm, close, prior), ClosingEvents(doc, rootPath);
    var j := |r.events| - |prior|;
    if gm(ThumbnailJob).Fail? {
      assert j == 1;
    } else if close.None? {
      assert j == 3;
    } else {
      assert j == 4;
    }
    assert r.events == prior + closing[..j];
    assert closing[..j] <= closing;
    PrefixAfterCommonFront(prior, closing[..j], closing);
  }

  /** Every run's requests are a prefix of the planned trace: conversions
      for all indices in order, then captions in order, then the single
      thumbnail, the script save, the renderer and the state save. A run
      that resolves makes all of them, one that stays pending all but the
      state save, and one that rejects none after the thumbnail. */
  lemma VideoRunFollowsPlan(doc: Document, rootPath: string, gm: Compositor, close: Option<int>)
    ensures var r, plan := VideoRun(doc, rootPath, gm, close), PlannedEvents(doc, rootPath);
      && r.events <= plan
      && (r.settlement == Resolved ==> r.events == plan)
      && (r.settlement == Pending ==> r.events == plan[..|plan| - 1])
      && (r.settlement.Rejected? ==> |r.events| <= |plan| - 3)
  {
    if RunJobs(ConversionSteps(|doc.sentences|), gm).outcome.Fail? {
      ConversionsFailFollowPlan(doc, rootPath, gm, close);
    } else if RunJobs(CaptionSteps(doc.sentences), gm).outcome.Fail? {
      CaptionsFailFollowPlan(doc, rootPath, gm, close);
    } else {
      ImageStagesPassFollowPlan(doc, rootPath, gm, close);
    }
  }

  /** A trace that is a prefix of the plan, whole when the run resolves,
      short of the state save when it stays pending, and short of the
      script save, the renderer and the state save when it rejects. */
  predicate FollowsPlan(r: VideoRunResult, plan: seq<Event>) {
    && |plan| >= 4
    && r.events <= plan
    && (r.settlement == Resolved ==> r.events == plan)
    && (r.settlement == Pending ==> r.events == plan[..|plan| - 1])
    && (r.settlement.Rejected? ==> |r.events| <= |plan| - 3)
  }

  /** VideoRunFollowsPlan when a conversion rejects. */
  lemma ConversionsFailFollowPlan(doc: Document, rootPath: string, gm: Compositor, close: Option<int>)
    requires RunJobs(ConversionSteps(|doc.sentences|), gm).outcome.Fail?
    ensures FollowsPlan(VideoRun(doc, rootPath, gm, close), PlannedEvents(doc, rootPath))
  {
    var n := |doc.sentences|;
    var conversions := RunJobs(ConversionSteps(n), gm);
    var convPlan, capPlan, closing := ConversionEvents(n), CaptionEvents(doc.sentences), ClosingEvents(doc, rootPath);
    assert PlannedEvents(doc, rootPath) == convPlan + (capPlan + closing);
    ConversionsFollowPlan(n, gm);
    PrefixOfConcat(conversions.events, convPlan, capPlan + closing);
  }

  /** VideoRunFollowsPlan when the conversions pass and a caption rejects. */
  lemma CaptionsFailFollowPlan(doc: Document, rootPath: string, gm: Compositor, close: Option<int>)
    requires RunJobs(ConversionSteps(|doc.sentences|), gm).outcome.Pass?
    requires RunJobs(CaptionSteps(doc.sentences), gm).outcome.Fail?
    ensures FollowsPlan(VideoRun(doc, rootPath, gm, close), PlannedEvents(doc, rootPath))
  {
    var n := |doc.sentences|;
    var captions := RunJobs(CaptionSteps(doc.sentences), gm);
    var convPlan, capPlan, closing := ConversionEvents(n), CaptionEvents(doc.sentences), ClosingEvents(doc, rootPath);
    assert PlannedEvents(doc, rootPath) == convPlan + (capPlan + closing);
    ConversionsFollowPlan(n, gm);
    CaptionsFollowPlan(doc.sentences, gm);
    PrefixOfConcat(captions.events, capPlan, closing);
    PrefixAfterCommonFront(convPlan, captions.events, capPlan + closing);
  }

  /** VideoRunFollowsPlan when the conversions and the captions pass. */
  lemma ImageStagesPassFollowPlan(doc: Document, rootPath: string, gm: Compositor, close: Option<int>)
    requires RunJobs(ConversionSteps(|doc.sentences|), gm).outcome.Pass?
    requires RunJobs(CaptionSteps(doc.sentences), gm).outcome.Pass?
    ensures FollowsPlan(VideoRun(doc, rootPath, gm, close), PlannedEvents(doc, rootPath))
  {
    var n := |doc.sentences|;
    var convPlan, capPlan, closing := ConversionEvents(n), CaptionEvents(doc.sentences), ClosingEvents(doc, rootPath);
    ConversionsFollowPlan(n, gm);
    CaptionsFollowPlan(doc.sentences, gm);
    var prior := convPlan + capPlan;
    assert PlannedEvents(doc, rootPath) == prior + closing;
    FinishFollowsPlan(doc, rootPath, gm, close, prior);
  }

  /** The planned trace is image writes other than the thumbnail (one
      conversion per sentence and one caption per covered sentence), then
      the thumbnail, the script save, the renderer and the state save. */
  lemma PlanLayout(doc: Document, rootPath: string)
    ensures var plan, at := PlannedEvents(doc, rootPath), |doc.sentences| + CaptionCount(doc.sentences);
      && |plan| == at + 4
      && (forall k :: 0 <= k < at ==> plan[k].Compose? && !plan[k].job.Thumbnail?)
      && plan[at] == Compose(ThumbnailJob)
      && plan[at + 1] == SaveScript(doc)
      && plan[at + 2] == Spawn(AerenderPath, RenderArguments(rootPath))
      && plan[at + 3] == SaveState(doc)
  {
    var plan, n := PlannedEvents(doc, rootPath), |doc.sentences|;
    var at := n + CaptionCount(doc.sentences);
    forall k | 0 <= k < at ensures plan[k].Compose? && !plan[k].job.Thumbnail? {
      if k < n {
        assert plan[k] == ConversionEvents(n)[k];
      } else {
        assert plan[k] == CaptionEvents(doc.sentences)[k - n];
      }
    }
  }

  /** After a rejection nothing but image writes has been requested: no
      script save, no renderer and no state save. */
  lemma VideoRunFailFast(doc: Document, rootPath: string, gm: Compositor, close: Option<int>)
    requires VideoRun(doc, rootPath, gm, close).settlement.Rejected?
    ensures var r := VideoRun(doc, rootPath, gm, close);
      forall k :: 0 <= k < |r.events| ==> r.events[k].Compose?
  {
    VideoRunFollowsPlan(doc, rootPath, gm, close);
    PlanLayout(doc, rootPath);
    var r, plan := VideoRun(doc, rootPath, gm, close), PlannedEvents(doc, rootPath);
    assert r.events == plan[..|r.events|];
  }

  /** The thumbnail is requested at most once, only after every conversion
      and every caption; it is requested whenever the conversion and caption
      stages pass, whether or not that write then succeeds, also for a
      document without sentences. */
  lemma VideoRunThumbnailOnce(doc: Document, rootPath: string, gm: Compositor, close: Option<int>)
    ensures var r := VideoRun(doc, rootPath, gm, close);
      var at := |doc.sentences| + CaptionCount(doc.sentences);
      && (forall k :: 0 <= k < |r.events| && r.events[k] == Compose(ThumbnailJob) ==> k == at)
      && (forall k :: 0 <= k < at && k < |r.events| ==> r.events[k].Compose? && !r.events[k].job.Thumbnail?)
      && (ImageStagesPass(doc, gm) ==> at < |r.events| && r.events[at] == Compose(ThumbnailJob))
  {
    VideoRunFollowsPlan(doc, rootPath, gm, close);
    if ImageStagesPass(doc, gm) {
      VideoRunReachesThumbnail(doc, rootPath, gm, close);
    }
    var r := VideoRun(doc, rootPath, gm, close);
    PlanPrefixThumbnail(doc, rootPath, r.events, ImageStagesPass(doc, gm));
  }

  /** When the conversions and captions pass, the run goes on to request
      the thumbnail, whether or not that write then succeeds. */
  lemma VideoRunReachesThumbnail(doc: Document, rootPath: string, gm: Compositor, close: Option<int>)
    requires ImageStagesPass(doc, gm)
    ensures |doc.sentences| + CaptionCount(doc.sentences) < |VideoRun(doc, rootPath, gm, close).events|
  {
    var n := |doc.sentences|;
    ConversionsFollowPlan(n, gm);
    CaptionsFollowPlan(doc.sentences, gm);
    var prior := ConversionEvents(n) + CaptionEvents(doc.sentences);
    assert VideoRun(doc, rootPath, gm, close) == FinishVideo(doc, rootPath, gm, close, prior);
  }

  /** The thumbnail facts for any prefix of the plan that, when `reached`,
      goes past the caption requests. */
  lemma PlanPrefixThumbnail(doc: Document, rootPath: string, events: seq<Event>, reached: bool)
    requires events <= PlannedEvents(doc, rootPath)
    requires reached ==> |doc.sentences| + CaptionCount(doc.sentences) < |events|
    ensures var at := |doc.sentences| + CaptionCount(doc.sentences);
      && (forall k :: 0 <= k < |events| && events[k] == Compose(ThumbnailJob) ==> k == at)
      && (forall k :: 0 <= k < at && k < |events| ==> events[k].Compose? && !events[k].job.Thumbnail?)
      && (reached ==> at < |events| && events[at] == Compose(ThumbnailJob))
  {
    PlanLayout(doc, rootPath);
    var plan := PlannedEvents(doc, rootPath);
    assert events == plan[..|events|];
  }

  /** The video stage never changes the content: the script save and the
      state save both carry the document as it was loaded. */
  lemma VideoRunSavesLoadedContent(doc: Document, rootPath: string, gm: Compositor, close: Option<int>)
    ensures var r := VideoRun(doc, rootPath, gm, close);
      && (forall k :: 0 <= k < |r.events| && r.events[k].SaveState? ==> r.events[k].doc == doc)
      && (forall k :: 0 <= k < |r.events| && r.events[k].SaveScript? ==> r.events[k].doc == doc)
      && (r.settlement == Resolved ==> r.events[|r.events| - 1] == SaveState(doc))
  {
    VideoRunFollowsPlan(doc, rootPath, gm, close);
    var r := VideoRun(doc, rootPath, gm, close);
    PlanPrefixSaves(doc, rootPath, r.events, r.settlement == Resolved);
  }

  /** Every save in a prefix of the plan carries the loaded document, and
      the whole plan ends with the state save. */
  lemma PlanPrefixSaves(doc: Document, rootPath: string, events: seq<Event>, whole: bool)
    requires events <= PlannedEvents(doc, rootPath)
    requires whole ==> events == PlannedEvents(doc, rootPath)
    ensures forall k :: 0 <= k < |events| && events[k].SaveState? ==> events[k].doc == doc
    ensures forall k :: 0 <= k < |events| && events[k].SaveScript? ==> events[k].doc == doc
    ensures whole ==> events[|events| - 1] == SaveState(doc)
  {
    PlanLayout(doc, rootPath);
    var plan := PlannedEvents(doc, rootPath);
    assert events == plan[..|events|];
  }

  /** A document with more than seven sentences never reaches the script
      save; when every conversion and the first seven captions succeed, the
      run rejects for the missing template of index 7. */
  lemma VideoRunTooManySentences(doc: Document, rootPath: string, gm: Compositor, close: Option<int>)
    requires |doc.sentences| > 7
    requires forall k :: 0 <= k < |doc.sentences| ==> gm(ConversionJob(k)).Pass?
    requires forall k :: 0 <= k < 7 ==> gm(CaptionJob(k, doc.sentences[k].text).value).Pass?
    ensures VideoRun(doc, rootPath, gm, close).settlement == Rejected(TemplateNotFound(7))
  {
    ConversionsFollowPlan(|doc.sentences|, gm);
    CaptionsStopAtEight(doc.sentences, gm);
  }
}
