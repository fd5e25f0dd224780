/** The professional-mode page gate (src/app/pro/page.tsx). */
module ProPage {
  import opened Common
  import opened RoleGate

  const ProRole := "pro"
  const AnimationKey := "proSuiteAnimationShown"

  datatype ProView = Spinner | AccessMessage | SuiteAnimation | Dashboard

  /** The render branches: spinner while loading or before mount, the access
      message for any role but `pro`, then the animation, then the dashboard. */
  function Render(authLoading: bool, isClient: bool, userRole: Role,
                  showAnimation: bool): (v: ProView)
    ensures v == Spinner <==> authLoading || !isClient
    ensures v == AccessMessage <==> !authLoading && isClient && userRole != Known(ProRole)
    ensures v == SuiteAnimation <==> !authLoading && isClient && userRole == Known(ProRole) && showAnimation
    ensures v == Dashboard ==> userRole == Known(ProRole)
  {
    if authLoading || !isClient then Spinner
    else if userRole != Known(ProRole) then AccessMessage
    else if showAnimation then SuiteAnimation
    else Dashboard
  }

  /** The page's state, the session storage it writes, and the paths it
      pushed to the router. */
  class ProGate {
    var isClient: bool
    var showProAnimation: bool
    var session: map<string, string>
    var pushes: seq<string>
    ghost var animationStarts: nat

    /** The animation has started at most once, and only if the flag is now set. */
    ghost predicate Valid()
      reads this
    {
      animationStarts <= 1
      && (SessionFlagUnset(session, AnimationKey) ==> animationStarts == 0)
    }

    constructor (initialSession: map<string, string>)
      ensures Valid()
      ensures !isClient && !showProAnimation && session == initialSession && pushes == []
    {
      isClient := false;
      showProAnimation := false;
      session := initialSession;
      pushes := [];
      animationStarts := 0;
    }

    /** The mount effect. */
    method Mount()
      requires Valid()
      modifies this
      ensures Valid() && isClient
      ensures showProAnimation == old(showProAnimation) && session == old(session) && pushes == old(pushes)
    {
      isClient := true;
    }

    /** The role effect: nothing while auth loads or before mount; otherwise
      the decision of `RoleGate.Decide` for role `pro`. */
    method RoleEffect(userRole: Role, authLoading: bool)
      requires Valid()
      modifies this
      ensures Valid()
      ensures isClient == old(isClient)
      ensures authLoading || !isClient ==>
        showProAnimation == old(showProAnimation) && session == old(session) && pushes == old(pushes)
      ensures !authLoading && isClient ==>
        var d := Decide(ProRole, userRole, SessionFlagUnset(old(session), AnimationKey));
        && session == FlagAfter(old(session), AnimationKey, d)
        && showProAnimation == (old(showProAnimation) || d == StartAnimation)
        && pushes == old(pushes) + (if d.Redirect? then [d.path] else [])
    {
      if authLoading || !isClient {
        return;
      }
      var d := Decide(ProRole, userRole, SessionFlagUnset(session, AnimationKey));
      match d
      case StartAnimation =>
        showProAnimation := true;
        session := session[AnimationKey := "true"];
        animationStarts := animationStarts + 1;
      case Redirect(path) =>
        pushes := pushes + [path];
      case Stay =>
    }

    /** `onAnimationComplete`: the animation is cleared. */
    method CompleteAnimation()
      requires Valid()
      modifies this
      ensures Valid() && !showProAnimation
      ensures isClient == old(isClient) && session == old(session) && pushes == old(pushes)
    {
      showProAnimation := false;
    }
  }
}
