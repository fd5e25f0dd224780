/** The decision the role-gated pages (src/app/pro/page.tsx,
    frontend/src/app/pro/page.tsx, frontend/src/app/medico/page.tsx) take
    in their effect once the user's role is known. */
module RoleGate {
  import opened Common

  /** The role a page reads from its context: `null` while it is not yet
      known, `undefined` when the context carries no role at all, or a role
      name. The pages test `userRole !== null`, so `undefined` counts as a
      known role that is not the required one. */
  datatype Role = NullRole | UndefinedRole | Known(name: string)

  /** What the effect does: start the intro animation (and mark it shown),
      redirect to a path, or nothing. */
  datatype Decision = StartAnimation | Redirect(path: string) | Stay

  /** For the page's `required` role the animation starts only when the
      session flag is unset; any other role that is not `null`, `undefined`
      included, is sent to `/`; a `null` role waits. */
  function Decide(required: string, userRole: Role, flagUnset: bool): (d: Decision)
    ensures d == StartAnimation <==> userRole == Known(required) && flagUnset
    ensures d.Redirect? <==> userRole != NullRole && userRole != Known(required)
    ensures d.Redirect? ==> d.path == "/"
    ensures d == Stay <==> userRole == NullRole || (userRole == Known(required) && !flagUnset)
  {
    if userRole == Known(required) then (if flagUnset then StartAnimation else Stay)
    else if userRole != NullRole then Redirect("/")
    else Stay
  }

  /** The session flag and the animation count move together: starting the
      animation sets the flag, so a later decision never starts it again. */
  function FlagAfter(session: map<string, string>, key: string, d: Decision): (s: map<string, string>)
    ensures d == StartAnimation ==> !SessionFlagUnset(s, key) && s[key] == "true"
    ensures d != StartAnimation ==> s == session
  {
    if d == StartAnimation then session[key := "true"] else session
  }

  /** However many times the effect runs in one session, the animation
      starts at most once: after the first start every decision is not a start. */
  lemma {:induction false} AtMostOncePerSession(required: string, key: string,
                                                session: map<string, string>,
                                                roles: seq<Role>)
    ensures Starts(required, key, session, roles) <= (if SessionFlagUnset(session, key) then 1 else 0)
    decreases |roles|
  {
    if roles != [] {
      var d := Decide(required, roles[0], SessionFlagUnset(session, key));
      var next := FlagAfter(session, key, d);
      AtMostOncePerSession(required, key, next, roles[1..]);
      if d == StartAnimation {
        assert !SessionFlagUnset(next, key);
      }
    }
  }

  /** How many times the animation starts when the effect runs once per
      role in `roles`, the session evolving as the page writes it. */
  function Starts(required: string, key: string, session: map<string, string>,
                  roles: seq<Role>): nat
    decreases |roles|
  {
    if roles == [] then 0
    else
      var d := Decide(required, roles[0], SessionFlagUnset(session, key));
      (if d == StartAnimation then 1 else 0)
      + Starts(required, key, FlagAfter(session, key, d), roles[1..])
  }
}
