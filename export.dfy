/**
 * The export run of `_App._create_gif`: four external stages in a fixed order
 * (ffmpeg remux, ffmpeg palette generation, ffmpeg palette use, gifsicle), the
 * first non-zero exit code ending the program, and the copy of the optimised
 * GIF to the user's path only after all four returned 0.
 *
 * What each external program returns is the parameter `run`; the window's
 * fields are read from a `Form`.
 */
module Export {
  import opened Wrappers
  import opened Errors
  import opened Trimming

  /** One external command, with the values the program passes to it (times in milliseconds). */
  datatype Stage =
    | Remux
    | PaletteGen(startMs: int, lengthMs: int, frameRate: int, width: int)
    | PaletteUse(startMs: int, lengthMs: int, frameRate: int, width: int)
    | Optimize(colors: int)

  function Tool(s: Stage): string {
    if s.Optimize? then "gifsicle" else "ffmpeg"
  }

  /** The place of a stage in the pipeline. */
  function Rank(s: Stage): nat {
    match s
    case Remux => 0
    case PaletteGen(_, _, _, _) => 1
    case PaletteUse(_, _, _, _) => 2
    case Optimize(_) => 3
  }

  /**
   * What the window's properties yield: the trim range, and the integer read
   * from each text field (None when `int()` raises on its text).
   */
  datatype Form = Form(span: Span, frameRate: Option<int>, width: Option<int>, colors: Option<int>)

  datatype Uncaught =
    | MissingRange  // the trim range does not exist yet
    | NotAnInteger  // a text field does not hold an integer

  datatype Outcome =
    | Crashed(error: Uncaught)     // an exception escapes the handler
    | Failed(stage: Stage, exit: Exit) // a stage returned non-zero: the program ends
    | Exported                     // the optimised GIF was copied to the user's path and previewed

  /** A stage that returned a non-zero `code`: `_error` names its program and the code. */
  function StageFailure(s: Stage, code: int): Outcome {
    Failed(s, ToolFailed(Tool(s), code))
  }

  /** The three ffmpeg stages, all on the same trimmed window, frame rate and width. */
  function Encoding(startMs: int, lengthMs: int, frameRate: int, width: int): seq<Stage> {
    [Remux, PaletteGen(startMs, lengthMs, frameRate, width), PaletteUse(startMs, lengthMs, frameRate, width)]
  }

  /** The index of the first stage that returns non-zero, or |stages| when all return 0. */
  function FirstFailure(stages: seq<Stage>, run: Stage -> int): (k: nat)
    ensures k <= |stages|
    ensures forall i :: 0 <= i < k ==> run(stages[i]) == 0
    ensures k < |stages| ==> run(stages[k]) != 0
  {
    if stages == [] || run(stages[0]) != 0 then 0 else 1 + FirstFailure(stages[1..], run)
  }

  /** The fields the run reads before starting any stage are all readable. */
  predicate Startable(form: Form) {
    form.span.start.Some? && form.span.end.Some? && form.frameRate.Some? && form.width.Some?
  }

  function FormEncoding(form: Form): seq<Stage>
    requires Startable(form)
  {
    var start := form.span.start.value;
    Encoding(start, form.span.end.value - start, form.frameRate.value, form.width.value)
  }

  /** All four stages, when every field is readable. */
  function Pipeline(form: Form): seq<Stage>
    requires Startable(form) && form.colors.Some?
  {
    FormEncoding(form) + [Optimize(form.colors.value)]
  }

  /**
   * The outcome of one click on "Create" and the stages started, in order.
   * The trim range, frame rate and width are read before the first stage; the
   * colour count only after the third.
   */
  function Export(form: Form, run: Stage -> int): (r: (Outcome, seq<Stage>))
    ensures |r.1| <= 4
    ensures r.0.Failed? ==> |r.1| > 0 && r.1[|r.1| - 1] == r.0.stage && run(r.0.stage) != 0
    ensures r.0.Exported? ==> |r.1| == 4 && run(r.1[3]) == 0
  {
    if form.span.start.None? || form.span.end.None? then (Crashed(MissingRange), [])
    else if form.frameRate.None? || form.width.None? then (Crashed(NotAnInteger), [])
    else
      var front := FormEncoding(form);
      var k := FirstFailure(front, run);
      if k < |front| then (StageFailure(front[k], run(front[k])), front[..k + 1])
      else if form.colors.None? then (Crashed(NotAnInteger), front)
      else
        var last := Optimize(form.colors.value);
        if run(last) != 0 then (StageFailure(last, run(last)), front + [last])
        else (Exported, front + [last])
  }

  /** The first failing index is the one before which every stage returned 0 and at which one did not. */
  lemma FirstFailureIs(stages: seq<Stage>, run: Stage -> int, k: nat)
    requires k <= |stages|
    requires forall i :: 0 <= i < k ==> run(stages[i]) == 0
    requires k < |stages| ==> run(stages[k]) != 0
    ensures FirstFailure(stages, run) == k
  {
  }

  /** A run in which ffmpeg stage `k` is the first to return non-zero. */
  lemma ExportFailsInEncoding(form: Form, run: Stage -> int, k: nat)
    requires Startable(form) && k < 3
    requires forall i :: 0 <= i < k ==> run(FormEncoding(form)[i]) == 0
    requires run(FormEncoding(form)[k]) != 0
    ensures Export(form, run) == (StageFailure(FormEncoding(form)[k], run(FormEncoding(form)[k])), FormEncoding(form)[..k + 1])
  {
    FirstFailureIs(FormEncoding(form), run, k);
  }

  /** A run in which the three ffmpeg stages all return 0. */
  lemma ExportAfterEncoding(form: Form, run: Stage -> int)
    requires Startable(form)
    requires forall i :: 0 <= i < 3 ==> run(FormEncoding(form)[i]) == 0
    ensures form.colors.None? ==> Export(form, run) == (Crashed(NotAnInteger), FormEncoding(form))
    ensures form.colors.Some? ==>
              var last := Optimize(form.colors.value);
              Export(form, run) == (if run(last) != 0 then StageFailure(last, run(last)) else Exported, FormEncoding(form) + [last])
  {
    FirstFailureIs(FormEncoding(form), run, 3);
  }

  /** `_create_gif`, stage after stage, each one started only when the previous one returned 0. */
  method CreateGif(form: Form, run: Stage -> int) returns (outcome: Outcome, invoked: seq<Stage>)
    ensures (outcome, invoked) == Export(form, run)
  {
    if form.span.end.None? || form.span.start.None? {
      return Crashed(MissingRange), [];
    }
    if form.frameRate.None? || form.width.None? {
      return Crashed(NotAnInteger), [];
    }
    var start := form.span.start.value;
    var length := form.span.end.value - start;
    var fps := form.frameRate.value;
    var width := form.width.value;
    var gen := PaletteGen(start, length, fps, width);
    var use := PaletteUse(start, length, fps, width);
    assert FormEncoding(form) == [Remux, gen, use];

    invoked := [Remux];
    var code := run(Remux);
    if code != 0 {
      ExportFailsInEncoding(form, run, 0);
      assert invoked == FormEncoding(form)[..1];
      return StageFailure(Remux, code), invoked;
    }

    invoked := invoked + [gen];
    code := run(gen);
    if code != 0 {
      ExportFailsInEncoding(form, run, 1);
      assert invoked == FormEncoding(form)[..2];
      return StageFailure(gen, code), invoked;
    }

    invoked := invoked + [use];
    code := run(use);
    if code != 0 {
      ExportFailsInEncoding(form, run, 2);
      assert invoked == FormEncoding(form)[..3];
      return StageFailure(use, code), invoked;
    }
    ExportAfterEncoding(form, run);
    assert invoked == FormEncoding(form);

    if form.colors.None? {
      return Crashed(NotAnInteger), invoked;
    }
    var optimize := Optimize(form.colors.value);
    invoked := invoked + [optimize];
    code := run(optimize);
    if code != 0 {
      return StageFailure(optimize, code), invoked;
    }
    outcome := Exported;
  }

  /** The copy happens exactly when every field is readable and all four stages return 0, after all four ran. */
  lemma ExportedIffAllSucceed(form: Form, run: Stage -> int)
    ensures Export(form, run).0 == Exported <==>
              Startable(form) && form.colors.Some? &&
              forall i :: 0 <= i < 4 ==> run(Pipeline(form)[i]) == 0
    ensures Export(form, run).0 == Exported ==> Export(form, run).1 == Pipeline(form)
  {
    if Startable(form) && form.colors.Some? {
      var p := Pipeline(form);
      var front := FormEncoding(form);
      var k := FirstFailure(front, run);
      assert forall i :: 0 <= i < 3 ==> p[i] == front[i];
      assert p[3] == Optimize(form.colors.value);
      if forall i :: 0 <= i < 4 ==> run(p[i]) == 0 {
        assert k == 3 && run(p[3]) == 0;
      } else {
        var i :| 0 <= i < 4 && run(p[i]) != 0;
        if i < 3 {
          assert run(front[i]) != 0;
        }
      }
    }
  }

  /**
   * A run that fails stops at the failing stage: it is the last one started,
   * every earlier one returned 0, and the program ends with status 1 naming
   * the tool and its exit code.
   */
  lemma StopsAtFirstFailure(form: Form, run: Stage -> int)
    requires Export(form, run).0.Failed?
    ensures var (o, invoked) := Export(form, run);
            |invoked| > 0 && invoked[|invoked| - 1] == o.stage &&
            run(o.stage) != 0 &&
            (forall i :: 0 <= i < |invoked| - 1 ==> run(invoked[i]) == 0) &&
            o.exit == ToolFailed(Tool(o.stage), run(o.stage)) && o.exit.status == 1
  {
  }

  /**
   * Stages start in the fixed order remux, palette generation, palette use,
   * optimisation, and both palette stages get the trim range, frame rate and
   * width read from the form.
   */
  lemma StagesInOrder(form: Form, run: Stage -> int)
    ensures var invoked := Export(form, run).1;
            |invoked| <= 4 &&
            (forall i :: 0 <= i < |invoked| ==> Rank(invoked[i]) == i) &&
            (|invoked| > 0 ==> Startable(form)) &&
            (forall i :: 1 <= i < |invoked| && i < 3 ==>
               var s := form.span.start.value;
               invoked[i].startMs == s && invoked[i].lengthMs == form.span.end.value - s &&
               invoked[i].frameRate == form.frameRate.value && invoked[i].width == form.width.value) &&
            (|invoked| == 4 ==> form.colors.Some? && invoked[3] == Optimize(form.colors.value))
  {
  }

  /**
   * An unreadable colour count is noticed only after the three ffmpeg stages
   * have all run and succeeded, and nothing is copied.
   */
  lemma LateColorsFailure(form: Form, run: Stage -> int)
    requires Startable(form) && form.colors.None?
    requires forall i :: 0 <= i < 3 ==> run(FormEncoding(form)[i]) == 0
    ensures Export(form, run) == (Crashed(NotAnInteger), FormEncoding(form))
  {
  }

  /** With a range kept ordered by the sliders, both palette stages get a non-negative length. */
  lemma OrderedRangeGivesNonNegativeLength(form: Form, run: Stage -> int)
    requires Ordered(form.span)
    ensures forall s :: s in Export(form, run).1 && (s.PaletteGen? || s.PaletteUse?) ==> s.lengthMs >= 0
  {
  }
}
