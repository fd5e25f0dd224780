/** The follow-up actions bar (src/components/medico/next-steps-display.tsx):
    a Save button, the first suggested step as the primary link, and the
    remaining steps in a dropdown. */
module NextStepsDisplay {
  import opened Common
  import opened Strings

  const ToolPathPrefix := "/medico/"
  const TopicQuery := "?topic="

  /** What the bar shows: only the Save button, or the Save button with a
      primary step and the secondary steps of the dropdown. */
  datatype Bar =
    | SaveOnly(saveDisabled: bool)
    | WithSteps(saveDisabled: bool, primary: NextStep, secondary: seq<NextStep>)

  /** The bar for `nextSteps`; a missing list counts as empty. */
  function Display(nextSteps: Option<seq<NextStep>>, isUserLoggedIn: bool): (b: Bar)
    ensures b.saveDisabled <==> !isUserLoggedIn
    ensures b.SaveOnly? <==> nextSteps.None? || nextSteps.value == []
    ensures b.WithSteps? ==> [b.primary] + b.secondary == nextSteps.value
  {
    if nextSteps.None? || |nextSteps.value| == 0 then SaveOnly(!isUserLoggedIn)
    else
      var steps := nextSteps.value;
      assert [steps[0]] + steps[1..] == steps;
      WithSteps(!isUserLoggedIn, steps[0], steps[1..])
  }

  /** The dropdown appears when there are secondary steps. */
  predicate HasDropdown(b: Bar) {
    b.WithSteps? && |b.secondary| > 0
  }

  /** The dropdown is there exactly when more than one step is suggested. */
  lemma DropdownIffSeveralSteps(nextSteps: Option<seq<NextStep>>, isUserLoggedIn: bool)
    ensures HasDropdown(Display(nextSteps, isUserLoggedIn)) <==> nextSteps.Some? && |nextSteps.value| > 1
  {
    var b := Display(nextSteps, isUserLoggedIn);
    if b.WithSteps? {
      assert |nextSteps.value| == 1 + |b.secondary|;
    }
  }

  /** A step's link, `encodeURIComponent` being given as `encode`. */
  function Href(step: NextStep, encode: string -> string): (h: string)
    ensures |h| == |ToolPathPrefix| + |step.toolId| + |TopicQuery| + |encode(step.prefilledTopic)|
    ensures h[..|ToolPathPrefix|] == ToolPathPrefix
    ensures h[|ToolPathPrefix|..|ToolPathPrefix| + |step.toolId|] == step.toolId
    ensures h[|ToolPathPrefix| + |step.toolId|..|ToolPathPrefix| + |step.toolId| + |TopicQuery|] == TopicQuery
    ensures h[|ToolPathPrefix| + |step.toolId| + |TopicQuery|..] == encode(step.prefilledTopic)
  {
    ToolPathPrefix + step.toolId + TopicQuery + encode(step.prefilledTopic)
  }

  /** Every link of the bar, the primary one first. */
  function Links(b: Bar, encode: string -> string): (ls: seq<string>)
    ensures b.SaveOnly? ==> ls == []
    ensures b.WithSteps? ==> |ls| == 1 + |b.secondary| && ls[0] == Href(b.primary, encode)
    ensures b.WithSteps? ==> forall i :: 0 <= i < |b.secondary| ==> ls[i + 1] == Href(b.secondary[i], encode)
  {
    match b
    case SaveOnly(_) => []
    case WithSteps(_, p, s) => [Href(p, encode)] + seq(|s|, i requires 0 <= i < |s| => Href(s[i], encode))
  }

  /** The bar links each suggested step, in the order suggested. */
  lemma LinksFollowSteps(steps: seq<NextStep>, isUserLoggedIn: bool, encode: string -> string)
    requires steps != []
    ensures var ls := Links(Display(Some(steps), isUserLoggedIn), encode);
            |ls| == |steps| && forall i :: 0 <= i < |steps| ==> ls[i] == Href(steps[i], encode)
  {
    var b := Display(Some(steps), isUserLoggedIn);
    assert forall i :: 0 < i < |steps| ==> steps[i] == b.secondary[i - 1];
  }

  /** A link names its tool and its encoded topic: for a tool id without
      `?`, the path after `/medico/` up to the first `?` is the tool id,
      and what follows `?topic=` is the encoded topic. */
  lemma {:induction false} HrefParsesBack(step: NextStep, encode: string -> string)
    requires '?' !in step.toolId
    ensures var h := Href(step, encode);
            var rest := h[|ToolPathPrefix|..];
            && h[..|ToolPathPrefix|] == ToolPathPrefix
            && BeforeFirst(rest, '?') == step.toolId
            && rest[|step.toolId| + |TopicQuery|..] == encode(step.prefilledTopic)
  {
    var h := Href(step, encode);
    var rest := h[|ToolPathPrefix|..];
    var tail := TopicQuery[1..] + encode(step.prefilledTopic);
    assert rest == step.toolId + ['?'] + tail;
    IndexOfAfter(step.toolId, tail, '?');
  }

  /** The first `c` of `a + [c] + b`, when `a` has none, is right after `a`. */
  lemma {:induction false} IndexOfAfter(a: string, b: string, c: char)
    requires c !in a
    ensures IndexOf(a + [c] + b, c) == |a|
  {
    if a != [] {
      IndexOfAfter(a[1..], b, c);
      assert (a + [c] + b)[1..] == a[1..] + [c] + b;
    }
  }
}
