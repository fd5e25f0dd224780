/** The professional-mode page gate of the front-end copy, which waits on
    `isLoadingRole` instead of the auth flag (frontend/src/app/pro/page.tsx). */
module FrontendProPage {
  import opened Common
  import opened RoleGate

  const ProRole := "pro"
  const AnimationKey := "proSuiteAnimationShown"

  datatype ProView = Spinner | AccessMessage | SuiteAnimation | Dashboard

  /** Spinner while the role is loading, then the access message for any
      role but `pro`, then the animation, then the dashboard. */
  function Render(isLoadingRole: bool, userRole: Role, showAnimation: bool): (v: ProView)
    ensures v == Spinner <==> isLoadingRole
    ensures v == AccessMessage <==> !isLoadingRole && userRole != Known(ProRole)
    ensures v == SuiteAnimation <==> !isLoadingRole && userRole == Known(ProRole) && showAnimation
    ensures v == Dashboard ==> userRole == Known(ProRole)
  {
    if isLoadingRole then Spinner
    else if userRole != Known(ProRole) then AccessMessage
    else if showAnimation then SuiteAnimation
    else Dashboard
  }

  class ProGate {
    var isLoadingRole: bool
    var showProAnimation: bool
    var session: map<string, string>
    var pushes: seq<string>
    ghost var animationStarts: nat

    ghost predicate Valid()
      reads this
    {
      animationStarts <= 1
      && (SessionFlagUnset(session, AnimationKey) ==> animationStarts == 0)
    }

    /** `isLoadingRole` starts true. */
    constructor (initialSession: map<string, string>)
      ensures Valid()
      ensures isLoadingRole && !showProAnimation && session == initialSession && pushes == []
    {
      isLoadingRole := true;
      showProAnimation := false;
      session := initialSession;
      pushes := [];
      animationStarts := 0;
    }

    /** The role effect: a `null` role changes nothing (so `isLoadingRole`
        stays as it was); any other role, `undefined` included, is decided
        and ends the loading. */
    method RoleEffect(userRole: Role)
      requires Valid()
      modifies this
      ensures Valid()
      ensures userRole == NullRole ==>
        isLoadingRole == old(isLoadingRole) && showProAnimation == old(showProAnimation)
        && session == old(session) && pushes == old(pushes)
      ensures userRole != NullRole ==>
        var d := Decide(ProRole, userRole, SessionFlagUnset(old(session), AnimationKey));
        && !isLoadingRole
        && session == FlagAfter(old(session), AnimationKey, d)
        && showProAnimation == (old(showProAnimation) || d == StartAnimation)
        && pushes == old(pushes) + (if d.Redirect? then [d.path] else [])
    {
      if userRole == NullRole {
        return;
      }
      var d := Decide(ProRole, userRole, SessionFlagUnset(session, AnimationKey));
      if d == StartAnimation {
        showProAnimation := true;
        session := session[AnimationKey := "true"];
        animationStarts := animationStarts + 1;
      } else if d.Redirect? {
        pushes := pushes + [d.path];
      }
      isLoadingRole := false;
    }

    method CompleteAnimation()
      requires Valid()
      modifies this
      ensures Valid() && !showProAnimation
      ensures isLoadingRole == old(isLoadingRole) && session == old(session) && pushes == old(pushes)
    {
      showProAnimation := false;
    }
  }

  /** This copy's mode context carries no `userRole`, so the page reads
      `undefined`: the effect ends the loading and redirects to `/`, and the
      page shows the access message instead of the dashboard. */
  method UndefinedRoleRedirects(g: ProGate)
    requires g.Valid()
    modifies g
    ensures g.Valid() && !g.isLoadingRole
    ensures g.pushes == old(g.pushes) + ["/"]
    ensures g.session == old(g.session) && g.showProAnimation == old(g.showProAnimation)
    ensures Render(g.isLoadingRole, UndefinedRole, g.showProAnimation) == AccessMessage
  {
    g.RoleEffect(UndefinedRole);
  }
}
