// src/router/index.ts: the route table and the beforeEach navigation guard.
// The guard is a first-match ladder; checkAuth's answer and the role it
// leaves in the auth store are inputs.

module Router {
  import opened Wrappers
  import opened Js
  import Auth

  /** The route meta fields the guard reads; a route without meta reads all as absent. */
  datatype Meta = Meta(requiresTurno: bool, autenticated: bool, requiresAdmin: bool, role: Option<seq<string>>)

  datatype Route = Route(path: string, name: string, meta: Meta)

  datatype Decision = Admit | RedirectHome | RedirectLogin

  /** The guard's decision and whether it awaited checkAuth to reach it. */
  datatype Outcome = Outcome(decision: Decision, checkedAuth: bool)

  const NoMeta: Meta := Meta(false, false, false, None)

  const AllRoles: seq<string> := ["admin", "terminale", "prof", "segreteria", "paninaro", "studente", "gestore"]
  const StaffRoles: seq<string> := ["admin", "prof", "segreteria", "paninaro"]
  const ManagerRoles: seq<string> := ["admin", "gestore"]

  const Routes: seq<Route> := [
    Route("/", "home", Meta(false, true, false, Some(AllRoles))),
    Route("/login", "login", NoMeta),
    Route("/prodotti", "prodotti", NoMeta),
    Route("/carrello", "carrello", Meta(true, true, false, Some(AllRoles))),
    Route("/qr", "QRCode", Meta(true, true, false, Some(StaffRoles))),
    Route("/gestione/addProdotto", "addProdotto", Meta(false, true, false, Some(ManagerRoles))),
    Route("/gestione/prodotti", "modificaProdotti", Meta(false, true, false, Some(ManagerRoles))),
    Route("/gestione/ordinazioni", "ordinazioni", Meta(false, true, false, Some(ManagerRoles))),
    Route("/gestione/ordinazioni/prof", "ordinazioniProf", Meta(false, true, false, Some(ManagerRoles))),
    Route("/autenticazione", "autenticazione", NoMeta),
    Route("/reports", "reports", NoMeta),
    Route("/utenti", "utenti", Meta(false, false, true, None))
  ]

  /** `roles.includes(userRole)`: strict equality with one of the role names. */
  predicate RoleListed(roles: seq<string>, userRole: JsValue)
  {
    userRole.Str? && userRole.s in roles
  }

  /** `authStore.user?.ruolo` */
  function RoleOf(user: Option<Auth.User>): (r: JsValue)
    ensures user.None? ==> r == Undefined
    ensures user.Some? ==> r == user.value.ruolo
  {
    if user.Some? then user.value.ruolo else Undefined
  }

  /** The beforeEach guard for a target route's meta, the selected shift, the
      answer checkAuth would give and the user's role after it. */
  function Guard(meta: Meta, turnoSelezionato: int, logged: bool, userRole: JsValue): (r: Outcome)
    // the shift test comes first and needs no auth check
    ensures meta.requiresTurno && turnoSelezionato == -1 ==> r == Outcome(RedirectHome, false)
    // checkAuth is awaited exactly for authenticated routes that pass the shift test
    ensures r.checkedAuth <==> meta.autenticated && !(meta.requiresTurno && turnoSelezionato == -1)
    ensures r.checkedAuth && !logged ==> r.decision == RedirectLogin
    ensures r.checkedAuth && logged && meta.role.Some? && meta.role.value != [] && userRole.Undefined? ==>
      r.decision == RedirectLogin
    ensures r.checkedAuth && logged && meta.role.Some? && meta.role.value != [] && !userRole.Undefined? ==>
      (r.decision == RedirectHome <==> !RoleListed(meta.role.value, userRole))
    ensures r.decision == Admit <==>
      && !(meta.requiresTurno && turnoSelezionato == -1)
      && (meta.autenticated ==>
            logged && (meta.role.None? || meta.role.value == [] || RoleListed(meta.role.value, userRole)))
  {
    if meta.requiresTurno && turnoSelezionato == -1 then Outcome(RedirectHome, false)
    else if !meta.autenticated then Outcome(Admit, false)
    else if !logged then Outcome(RedirectLogin, true)
    else if meta.role.None? || |meta.role.value| == 0 then Outcome(Admit, true)
    else if userRole.Undefined? then Outcome(RedirectLogin, true)
    else if !RoleListed(meta.role.value, userRole) then Outcome(RedirectHome, true)
    else Outcome(Admit, true)
  }

  /** The meta of the named route, as the table declares it. */
  function MetaOf(name: string): (r: Option<Meta>)
    ensures r.Some? <==> exists i :: 0 <= i < |Routes| && Routes[i].name == name
  {
    FindMeta(Routes, name)
  }

  function FindMeta(routes: seq<Route>, name: string): (r: Option<Meta>)
    ensures r.Some? <==> exists i :: 0 <= i < |routes| && routes[i].name == name
    ensures r.Some? ==> exists i :: 0 <= i < |routes| && routes[i].name == name && routes[i].meta == r.value
  {
    if routes == [] then None
    else if routes[0].name == name then Some(routes[0].meta)
    else
      var r := FindMeta(routes[1..], name);
      assert forall i :: 1 <= i < |routes| ==> routes[1..][i - 1] == routes[i];
      r
  }

  /** The meta found for a name is that of the first route so named. */
  lemma {:induction false} FindMetaAt(routes: seq<Route>, name: string, k: int)
    requires 0 <= k < |routes| && routes[k].name == name
    requires forall j :: 0 <= j < k ==> routes[j].name != name
    ensures FindMeta(routes, name) == Some(routes[k].meta)
  {
    if k > 0 {
      assert forall j :: 0 <= j < k - 1 ==> routes[1..][j] == routes[j + 1];
      FindMetaAt(routes[1..], name, k - 1);
    }
  }

  /** /utenti declares only requiresAdmin, which the guard never reads: every
      visitor is admitted and no auth check is made. */
  lemma UtentiIsOpen(turnoSelezionato: int, logged: bool, userRole: JsValue)
    ensures MetaOf("utenti").Some?
    ensures Guard(MetaOf("utenti").value, turnoSelezionato, logged, userRole) == Outcome(Admit, false)
  {
    FindMetaAt(Routes, "utenti", 11);
  }

  /** /qr admits only admin, prof, segreteria and paninaro: a logged-in studente
      with a selected shift is sent home. */
  lemma QrRefusesStudente(turnoSelezionato: int)
    requires turnoSelezionato != -1
    ensures MetaOf("QRCode").Some?
    ensures Guard(MetaOf("QRCode").value, turnoSelezionato, true, Str("studente")).decision == RedirectHome
    ensures forall role :: role in StaffRoles ==>
      Guard(MetaOf("QRCode").value, turnoSelezionato, true, Str(role)).decision == Admit
  {
    FindMetaAt(Routes, "QRCode", 4);
  }

  /** Every route that needs a selected shift also needs authentication. */
  lemma ShiftRoutesAreAuthenticated()
    ensures forall i :: 0 <= i < |Routes| && Routes[i].meta.requiresTurno ==> Routes[i].meta.autenticated
  {
  }

  /** Guarding with a real check: when the /auth/check body has no ruolo, a
      role-gated route sends the user to login even though the check succeeded. */
  lemma MissingRoleGoesToLogin(s: Auth.Session, reply: Auth.AuthReply, meta: Meta, turnoSelezionato: int)
    requires Auth.Accepts(reply) && Get(reply.body.value, "ruolo") == Undefined
    requires meta.autenticated && meta.role.Some? && meta.role.value != []
    requires !(meta.requiresTurno && turnoSelezionato == -1)
    ensures var (logged, after) := Auth.Check(s, reply);
      Guard(meta, turnoSelezionato, logged, RoleOf(after.user)).decision == RedirectLogin
  {
  }
}
