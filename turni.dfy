// src/stores/turno.ts: the shift registry. It loads the shifts of one
// weekday and keeps the user's selected shift.

module Turni {
  import opened Wrappers
  import opened Text
  import opened Fetch

  /** A shift as the server sends it. */
  datatype RawTurno = RawTurno(
    n: int, giorno: string, nome: string,
    oraInizioOrdine: string, oraFineOrdine: string,
    oraInizioRitiro: string, oraFineRitiro: string)

  /** A shift as the store keeps it. */
  datatype Turno = Turno(
    n: int, oraInizio: string, oraFine: string,
    inizioRitiro: string, fineRitiro: string, nome: string)

  /** The body of a /turni reply: a list of shifts, or something the store
      cannot read (malformed JSON, or not a list of shifts), with the message
      of the error that reading it throws. */
  datatype TurniBody = Items(items: seq<RawTurno>) | Unreadable(message: string)

  datatype TurniReply = NetworkFailure(message: string) | Reply(status: int, body: TurniBody)

  const NotFoundMessage: string := "Turni non trovati per oggi"
  const BadResponseMessage: string := "Errore nella risposta della rete"
  const UnknownTurnoMessage: string := "Turno non trovato"

  /** The sentinel for "no shift selected". */
  const NoTurno: int := -1

  predicate IsForDay(item: RawTurno, token: string)
  {
    ToLower(item.giorno) == token
  }

  /** The shifts whose weekday, lower-cased, is the query token, in order. */
  function ForDay(items: seq<RawTurno>, token: string): (r: seq<RawTurno>)
    ensures |r| <= |items|
    ensures forall x :: x in r <==> x in items && IsForDay(x, token)
  {
    if items == [] then []
    else (if IsForDay(items[0], token) then [items[0]] else []) + ForDay(items[1..], token)
  }

  /** The day filter keeps order: filtering a concatenation filters each part. */
  lemma {:induction false} ForDayAppend(a: seq<RawTurno>, b: seq<RawTurno>, token: string)
    ensures ForDay(a + b, token) == ForDay(a, token) + ForDay(b, token)
  {
    if a == [] {
      assert a + b == b;
    } else {
      assert (a + b)[0] == a[0] && (a + b)[1..] == a[1..] + b;
      ForDayAppend(a[1..], b, token);
    }
  }

  /** The field renaming of one shift. */
  function Rename(item: RawTurno): (t: Turno)
    ensures t.n == item.n && t.nome == item.nome
    ensures t.oraInizio == item.oraInizioOrdine && t.oraFine == item.oraFineOrdine
    ensures t.inizioRitiro == item.oraInizioRitiro && t.fineRitiro == item.oraFineRitiro
  {
    Turno(item.n, item.oraInizioOrdine, item.oraFineOrdine, item.oraInizioRitiro, item.oraFineRitiro, item.nome)
  }

  function RenameAll(items: seq<RawTurno>): (r: seq<Turno>)
    ensures |r| == |items| && forall i :: 0 <= i < |items| ==> r[i] == Rename(items[i])
  {
    seq(|items|, i requires 0 <= i < |items| => Rename(items[i]))
  }

  /** Every loaded shift is one of the day's raw shifts, renamed; and every raw
      shift of that day is loaded. */
  lemma LoadedShiftsAreTheDays(items: seq<RawTurno>, token: string)
    ensures forall t :: t in RenameAll(ForDay(items, token)) <==>
      exists x :: x in items && IsForDay(x, token) && t == Rename(x)
  {
    var f := ForDay(items, token);
    var r := RenameAll(f);
    forall t | t in r ensures exists x :: x in items && IsForDay(x, token) && t == Rename(x) {
      var i :| 0 <= i < |r| && r[i] == t;
      assert f[i] in f;
    }
    forall x | x in items && IsForDay(x, token) ensures Rename(x) in r {
      var i :| 0 <= i < |f| && f[i] == x;
      assert r[i] == Rename(x);
    }
  }

  /** The first shift numbered n, as Array.prototype.find gives it. */
  function FindTurno(turni: seq<Turno>, n: int): (r: Option<Turno>)
    ensures r.None? <==> forall t :: t in turni ==> t.n != n
    ensures r.Some? ==> r.value in turni && r.value.n == n
    ensures r.Some? ==> exists i :: 0 <= i < |turni| && turni[i] == r.value && FirstWithNumber(turni, n, i)
  {
    if turni == [] then None
    else if turni[0].n == n then Some(turni[0])
    else
      var r := FindTurno(turni[1..], n);
      if r.Some? then
        var i :| 0 <= i < |turni[1..]| && turni[1..][i] == r.value && FirstWithNumber(turni[1..], n, i);
        assert turni[i + 1] == r.value && FirstWithNumber(turni, n, i + 1);
        r
      else r
  }

  /** Index i holds the first shift numbered n. */
  predicate FirstWithNumber(turni: seq<Turno>, n: int, i: int)
    requires 0 <= i < |turni|
  {
    turni[i].n == n && forall j :: 0 <= j < i ==> turni[j].n != n
  }

  class TurnoStore {
    var selectedTurno: int
    var turni: seq<Turno>
    var loading: bool
    var error: Option<string>

    constructor ()
      ensures selectedTurno == NoTurno && turni == [] && !loading && error == None
    {
      selectedTurno := NoTurno;
      turni := [];
      loading := false;
      error := None;
    }

    /** fetchTurni for the weekday token (today's, lower-cased and cut to three
        letters), given what the server replies. */
    method FetchTurni(token: string, reply: TurniReply)
      modifies this`turni, this`loading, this`error
      ensures !loading
      ensures reply.Reply? && reply.body.Items? && reply.status != 404 && IsOk(reply.status) ==>
        turni == RenameAll(ForDay(reply.body.items, token)) && error == None
      ensures reply.NetworkFailure? ==> turni == old(turni) && error == Some(reply.message)
      ensures reply.Reply? && reply.status == 404 ==> turni == old(turni) && error == Some(NotFoundMessage)
      ensures reply.Reply? && reply.status != 404 && !IsOk(reply.status) ==>
        turni == old(turni) && error == Some(BadResponseMessage)
      ensures reply.Reply? && IsOk(reply.status) && reply.body.Unreadable? ==>
        turni == old(turni) && error == Some(reply.body.message)
    {
      loading := true;
      error := None;
      match reply {
        case NetworkFailure(message) =>
          error := Some(message);
        case Reply(status, body) =>
          if status == 404 {
            error := Some(NotFoundMessage);
          } else if !IsOk(status) {
            error := Some(BadResponseMessage);
          } else {
            match body {
              case Unreadable(message) =>
                error := Some(message);
              case Items(items) =>
                var filtered := ForDay(items, token);
                turni := RenameAll(filtered);
            }
          }
      }
      loading := false;
    }

    /** selectTurno: selects n if some loaded shift has that number, otherwise
        records an error and keeps the selection. */
    method SelectTurno(n: int)
      modifies this`selectedTurno, this`error
      ensures (exists t :: t in turni && t.n == n) ==>
        selectedTurno == n && error == old(error)
      ensures (forall t :: t in turni ==> t.n != n) ==>
        selectedTurno == old(selectedTurno) && error == Some(UnknownTurnoMessage)
    {
      var turno := FindTurno(turni, n);
      if turno.None? {
        error := Some(UnknownTurnoMessage);
        return;
      }
      selectedTurno := n;
    }
  }
}
