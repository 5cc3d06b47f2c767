// src/stores/auth.ts: the session state. checkAuth asks the server whether
// the session cookie is valid and steps user, loading and isAuthenticated.

module Auth {
  import opened Wrappers
  import opened Js
  import opened Fetch

  /** The session's user; id is never set by checkAuth. */
  datatype User = User(id: Option<int>, nome: JsValue, foto: JsValue, ruolo: JsValue)

  /** What `await fetch('/auth/check')` gives. */
  datatype AuthReply = AuthNetworkError | AuthReplied(status: int, body: JsonBody)

  /** The store's three fields. */
  datatype Session = Session(user: Option<User>, loading: bool, isAuthenticated: bool)

  const InitialSession: Session := Session(None, true, false)

  /** The user built from the /auth/check body: nome, foto_url and ruolo are copied. */
  function UserFrom(data: JsValue): (u: User)
    ensures u.id.None?
    ensures u.nome == Get(data, "nome") && u.foto == Get(data, "foto_url") && u.ruolo == Get(data, "ruolo")
  {
    User(None, Get(data, "nome"), Get(data, "foto_url"), Get(data, "ruolo"))
  }

  /** Whether checkAuth gets as far as reading the body: only then are loading
      and isAuthenticated written. */
  predicate ReachesBody(reply: AuthReply)
  {
    reply.AuthReplied? && IsOk(reply.status) && reply.body.Parsed?
  }

  /** Whether checkAuth answers true: the body is read and is not null. */
  predicate Accepts(reply: AuthReply)
  {
    ReachesBody(reply) && !IsNullish(reply.body.value)
  }

  /** logout: forgets the user, and nothing else. */
  function LogoutSession(s: Session): (r: Session)
    ensures r.user == None && r.loading == s.loading && r.isAuthenticated == s.isAuthenticated
  {
    s.(user := None)
  }

  /** checkAuth as one step of the session: its answer and the session after it. */
  function Check(s: Session, reply: AuthReply): (r: (bool, Session))
    ensures r.0 <==> Accepts(reply)
    ensures r.0 <==> r.1.user.Some?
    ensures r.0 ==> r.1.user == Some(UserFrom(reply.body.value))
    ensures r.1.loading <==> !ReachesBody(reply)
    ensures r.1.isAuthenticated <==> s.isAuthenticated || ReachesBody(reply)
  {
    var started := s.(loading := true);
    match reply
    case AuthNetworkError => (false, LogoutSession(started))
    case AuthReplied(status, body) =>
      if !IsOk(status) then (false, LogoutSession(started))
      else
        match body
        case Malformed(_) => (false, LogoutSession(started))
        case Parsed(data) =>
          var read := started.(loading := false, isAuthenticated := true);
          if IsNullish(data) then (false, LogoutSession(read))  // checkData.nome throws
          else (true, read.(user := Some(UserFrom(data))))
  }

  /** The session after a series of checks, in order. */
  function RunChecks(s: Session, replies: seq<AuthReply>): Session
    decreases |replies|
  {
    if replies == [] then s else RunChecks(Check(s, replies[0]).1, replies[1..])
  }

  /** isAuthenticated is never reset: after any series of checks it is true
      exactly when it was true before or some check got as far as the body. */
  lemma {:induction false} AuthenticatedSticks(s: Session, replies: seq<AuthReply>)
    ensures RunChecks(s, replies).isAuthenticated <==>
      s.isAuthenticated || exists i :: 0 <= i < |replies| && ReachesBody(replies[i])
    decreases |replies|
  {
    if replies != [] {
      var next := Check(s, replies[0]).1;
      AuthenticatedSticks(next, replies[1..]);
      if exists i :: 0 <= i < |replies| && ReachesBody(replies[i]) {
        var i :| 0 <= i < |replies| && ReachesBody(replies[i]);
        if i > 0 { assert ReachesBody(replies[1..][i - 1]); }
      }
      if exists i :: 0 <= i < |replies[1..]| && ReachesBody(replies[1..][i]) {
        var i :| 0 <= i < |replies[1..]| && ReachesBody(replies[1..][i]);
        assert ReachesBody(replies[i + 1]);
      }
    }
  }

  /** After a failed check that follows a successful one, the store says
      "authenticated" but holds no user. */
  lemma FailureAfterSuccess(s: Session, ok: AuthReply, failed: AuthReply)
    requires Accepts(ok) && !ReachesBody(failed)
    ensures var r := RunChecks(s, [ok, failed]);
      r.isAuthenticated && r.user.None? && r.loading
  {
    var first := Check(s, ok).1;
    assert [ok, failed][1..] == [failed];
    assert RunChecks(s, [ok, failed]) == RunChecks(first, [failed]);
    assert [failed][1..] == [];
    assert RunChecks(first, [failed]) == Check(first, failed).1;
  }

  class AuthStore {
    var user: Option<User>
    var loading: bool
    var isAuthenticated: bool

    function State(): Session
      reads this
    {
      Session(user, loading, isAuthenticated)
    }

    constructor ()
      ensures State() == InitialSession
    {
      user := None;
      loading := true;
      isAuthenticated := false;
    }

    /** logout: clears the user (the redirect to /login is not modelled). */
    method Logout()
      modifies this`user
      ensures State() == LogoutSession(old(State()))
    {
      user := None;
    }

    /** checkAuth, given what the server replies. */
    method CheckAuth(reply: AuthReply) returns (logged: bool)
      modifies this
      ensures (logged, State()) == Check(old(State()), reply)
    {
      loading := true;
      match reply {
        case AuthNetworkError =>
          Logout();
          return false;
        case AuthReplied(status, body) =>
          if !IsOk(status) {
            Logout();
            return false;
          }
          match body {
            case Malformed(_) =>
              Logout();
              return false;
            case Parsed(data) =>
              loading := false;
              isAuthenticated := true;
              if IsNullish(data) {
                Logout();
                return false;
              }
              user := Some(UserFrom(data));
              return true;
          }
      }
    }
  }
}
