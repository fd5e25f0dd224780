/** The medico-mode page gate (frontend/src/app/medico/page.tsx). */
module MedicoPage {
  import opened Common
  import opened RoleGate

  const MedicoRole := "medico"
  const AnimationKey := "medicoHubAnimationShown"

  datatype MedicoView = Spinner | AccessMessage | HubAnimation | Dashboard

  /** Spinner before mount or while auth loads, the access message for any
      role but `medico`, then the hub animation, then the dashboard. */
  function Render(isClient: bool, authLoading: bool, userRole: Role,
                  showAnimation: bool): (v: MedicoView)
    ensures v == Spinner <==> !isClient || authLoading
    ensures v == AccessMessage <==> isClient && !authLoading && userRole != Known(MedicoRole)
    ensures v == HubAnimation <==> isClient && !authLoading && userRole == Known(MedicoRole) && showAnimation
    ensures v == Dashboard ==> userRole == Known(MedicoRole)
  {
    if !isClient || authLoading then Spinner
    else if userRole != Known(MedicoRole) then AccessMessage
    else if showAnimation then HubAnimation
    else Dashboard
  }

  class MedicoGate {
    var isClient: bool
    var showMedicoAnimation: bool
    var session: map<string, string>
    var pushes: seq<string>
    ghost var animationStarts: nat

    ghost predicate Valid()
      reads this
    {
      animationStarts <= 1
      && (SessionFlagUnset(session, AnimationKey) ==> animationStarts == 0)
    }

    constructor (initialSession: map<string, string>)
      ensures Valid()
      ensures !isClient && !showMedicoAnimation && session == initialSession && pushes == []
    {
      isClient := false;
      showMedicoAnimation := false;
      session := initialSession;
      pushes := [];
      animationStarts := 0;
    }

    method Mount()
      requires Valid()
      modifies this
      ensures Valid() && isClient
      ensures showMedicoAnimation == old(showMedicoAnimation) && session == old(session) && pushes == old(pushes)
    {
      isClient := true;
    }

    /** Nothing before mount or while auth loads; otherwise the decision for
        role `medico`. */
    method RoleEffect(userRole: Role, authLoading: bool)
      requires Valid()
      modifies this
      ensures Valid()
      ensures isClient == old(isClient)
      ensures !isClient || authLoading ==>
        showMedicoAnimation == old(showMedicoAnimation) && session == old(session) && pushes == old(pushes)
      ensures isClient && !authLoading ==>
        var d := Decide(MedicoRole, userRole, SessionFlagUnset(old(session), AnimationKey));
        && session == FlagAfter(old(session), AnimationKey, d)
        && showMedicoAnimation == (old(showMedicoAnimation) || d == StartAnimation)
        && pushes == old(pushes) + (if d.Redirect? then [d.path] else [])
    {
      if !isClient || authLoading {
        return;
      }
      var d := Decide(MedicoRole, userRole, SessionFlagUnset(session, AnimationKey));
      match d
      case StartAnimation =>
        showMedicoAnimation := true;
        session := session[AnimationKey := "true"];
        animationStarts := animationStarts + 1;
      case Redirect(path) =>
        pushes := pushes + [path];
      case Stay =>
    }

    method CompleteAnimation()
      requires Valid()
      modifies this
      ensures Valid() && !showMedicoAnimation
      ensures isClient == old(isClient) && session == old(session) && pushes == old(pushes)
    {
      showMedicoAnimation := false;
    }
  }

  /** This copy's mode context carries neither `userRole` nor `loading`, so
      once mounted the page reads an `undefined` role with loading falsy: the
      effect redirects to `/` and the page shows the access message. */
  method UndefinedRoleRedirects(g: MedicoGate)
    requires g.Valid() && g.isClient
    modifies g
    ensures g.Valid()
    ensures g.pushes == old(g.pushes) + ["/"]
    ensures g.session == old(g.session) && g.showMedicoAnimation == old(g.showMedicoAnimation)
    ensures Render(g.isClient, false, UndefinedRole, g.showMedicoAnimation) == AccessMessage
  {
    g.RoleEffect(UndefinedRole, false);
  }
}
