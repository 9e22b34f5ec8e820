/**
 * Clients refreshing their sessions against one server: the single-flight `refreshAccessToken` of
 * frontend/lib/auth.ts, `logout` of frontend/lib/api.ts, the `/refresh` and `/logout` routes of
 * backend/app/api/auth.py, and the rotation steps of RefreshTokens.dfy. A client is one page of the
 * application with its own module variables; pages of one browser share a cookie jar.
 */
module SessionProtocol {
  import opened Common
  import R = RefreshTokens

  /** How the server answers a refresh request. */
  datatype Answer = Minted(token: string) | Denied | NoCookie

  datatype Reply = Reply(request: Option<string>, answer: Answer)

  /** `refreshInFlight`: null, a pending promise, or a settled one whose `finally` has not run. */
  datatype Flight = Idle | Flying | Settled(ok: bool)

  /**
   * `sent` and `back` are the client's refresh requests and responses on the wire, `desk` the rotation the server is
   * doing for it, and `lost` those it does although the client has given up; `outs` are its logout requests, `gone`
   * the tokens of logouts the server has handled but not yet answered, `login` the cookie of a login response still
   * on its way; `waiting` are the callers that await the promise, `got` what callers were told.
   */
  datatype Client = Client(
    jar: nat, access: bool, flight: Flight, waiting: set<nat>, got: map<nat, bool>,
    sent: seq<Option<string>>, desk: Option<R.Work>, lost: seq<R.Work>, back: seq<Reply>,
    outs: seq<Option<string>>, gone: seq<Option<string>>, login: Option<string>)

  function NewClient(jar: nat): Client {
    Client(jar, false, Idle, {}, map[], [], None, [], [], [], [], None)
  }

  /**
   * The server's token table and number of logins, and the jars' refresh cookies. `stale` collects, from what happens
   * to messages alone, the tokens that must not be looked up again; `reused` records that one was taken for stolen.
   */
  datatype World = World(rows: R.Table, logins: nat, cookies: seq<Option<string>>, clients: seq<Client>, stale: set<string>, reused: bool)

  /** Client c of the start uses jar `places[c]`. */
  function Start(jars: nat, places: seq<nat>): (w: World)
    ensures |w.clients| == |places| && forall c :: 0 <= c < |places| ==> w.clients[c] == NewClient(places[c])
  {
    World(map[], 0, seq(jars, _ => None), seq(|places|, c requires 0 <= c < |places| => NewClient(places[c])), {}, false)
  }

  // ----- the client's module variables ------------------------------------------------

  /** `refreshAccessToken()`: join the flight if there is one, else send one request with the jar's cookie. */
  function Ask(cl: Client, cookie: Option<string>, caller: nat): Client {
    match cl.flight
    case Flying => cl.(waiting := cl.waiting + {caller})
    case Settled(ok) => cl.(got := cl.got[caller := ok])
    case Idle => cl.(flight := Flying, waiting := {caller}, sent := cl.sent + [cookie])
  }

  /** The promise settles: every caller that awaits it learns the same answer. */
  function Resolve(cl: Client, ok: bool): Client {
    cl.(access := ok, flight := Settled(ok), waiting := {}, got := cl.got + map c | c in cl.waiting :: ok)
  }

  /** The client forgets its request; the server does not. */
  function GiveUp(cl: Client): Client {
    cl.(sent := [], desk := None, back := [], lost := cl.lost + if cl.desk.Some? then [cl.desk.value] else [])
  }

  /**
   * Only a rotation sets the cookie. A denial clears it on a response object that the
   * exception raised next does not send, so the browser keeps its cookie.
   */
  function SetCookie(cookie: Option<string>, answer: Answer): Option<string> {
    if answer.Minted? then Some(answer.token) else cookie
  }

  class CookieJar {
    var cookie: Option<string>

    constructor ()
      ensures cookie == None
    {
      cookie := None;
    }
  }

  class AuthClient {
    const jar: CookieJar
    ghost const place: nat
    var accessToken: bool
    var refreshInFlight: Flight
    var waiting: set<nat>
    var got: map<nat, bool>
    var sent: seq<Option<string>>
    ghost var desk: Option<R.Work>
    ghost var lost: seq<R.Work>
    var back: seq<Reply>
    var outs: seq<Option<string>>
    var gone: seq<Option<string>>
    var login: Option<string>

    ghost function View(): Client
      reads this
    {
      Client(place, accessToken, refreshInFlight, waiting, got, sent, desk, lost, back, outs, gone, login)
    }

    constructor (jar: CookieJar, ghost place: nat)
      ensures View() == NewClient(place) && this.jar == jar
    {
      this.jar, this.place := jar, place;
      accessToken, refreshInFlight, waiting, got := false, Idle, {}, map[];
      sent, desk, lost, back, outs, gone, login := [], None, [], [], [], [], None;
    }

    method RefreshAccessToken(caller: nat)
      modifies this
      ensures View() == Ask(old(View()), jar.cookie, caller)
    {
      if refreshInFlight.Settled? {
        got := got[caller := refreshInFlight.ok];
        return;
      }
      if refreshInFlight.Idle? {
        refreshInFlight := Flying;
        waiting := {};
        sent := sent + [jar.cookie];
      }
      waiting := waiting + {caller};
    }

    /** The response arrives: the browser keeps its cookie, the awaiting code runs to its return. */
    method ResponseArrives()
      requires back != []
      modifies this`back, this`accessToken, this`refreshInFlight, this`got, this`waiting, jar
      ensures View() == Resolve(old(View()).(back := old(back)[1..]), old(back)[0].answer.Minted?)
      ensures jar.cookie == SetCookie(old(jar.cookie), old(back)[0].answer)
    {
      var answer := back[0].answer;
      back := back[1..];
      if answer.Minted? {
        jar.cookie := Some(answer.token);
      }
      Settle(answer.Minted?);
    }

    /** The promise's value reaches every caller that awaits it. */
    method Settle(ok: bool)
      modifies this`accessToken, this`refreshInFlight, this`got, this`waiting
      ensures View() == Resolve(old(View()), ok)
    {
      accessToken := ok;
      refreshInFlight := Settled(ok);
      got := got + map c | c in waiting :: ok;
      waiting := {};
    }

    /** `catch`: the request or its response never arrives; what the server is doing for it goes on. */
    method RequestFails()
      requires sent != [] || desk.Some? || back != []
      modifies this`sent, this`desk, this`back, this`lost, this`accessToken, this`refreshInFlight, this`got, this`waiting
      ensures View() == Resolve(GiveUp(old(View())), false)
    {
      lost := lost + if desk.Some? then [desk.value] else [];
      sent, desk, back := [], None, [];
      hide Resolve;
      Settle(false);
    }

    /** `finally`: forget the settled promise. */
    method Finally()
      requires refreshInFlight.Settled?
      modifies this
      ensures View() == old(View()).(flight := Idle)
    {
      refreshInFlight := Idle;
    }
  }

  // ----- the whole system ------------------------------------------------------------------

  datatype Action =
    | Call(c: nat, caller: nat)
    | Look(c: nat, expired: bool)                     // the server looks the request's token up
    | Refuse(c: nat)                                  // ... no such user
    | Exchange(c: nat, now: nat)                      // ... it revokes the token
    | Mint(c: nat, next: string)                      // ... it stores the new one and answers
    | Strike(c: nat, now: nat)                        // ... or it revokes all the user's tokens and answers
    | Deliver(c: nat)                                 // the response arrives
    | Clear(c: nat)                                   // the promise's `finally`
    | Lose(c: nat)                                    // the request or its response is lost
    | LostExchange(c: nat, i: nat, now: nat)          // the server goes on with a rotation nobody waits for
    | LostMint(c: nat, i: nat, next: string)
    | LostStrike(c: nat, i: nat, now: nat)
    | LostDrop(c: nat, i: nat)
    | LoginServed(c: nat, user: string, token: string)
    | LoginDelivered(c: nat)
    | LogoutCall(c: nat)
    | LogoutServe(c: nat, now: nat)
    | LogoutDeliver(c: nat)
    | LogoutLose(c: nat, answered: bool)              // a logout or its answer is lost

  predicate Enabled(w: World, a: Action) {
    && a.c < |w.clients| && w.clients[a.c].jar < |w.cookies|
    && var cl := w.clients[a.c];
       match a
       case Call(_, _) => true
       case Look(_, _) => cl.sent != []
       case Refuse(_) => cl.desk.Some? && cl.desk.value.Judged?
       case Exchange(_, _) => cl.desk.Some? && cl.desk.value.Judged?
       case Mint(_, next) => cl.desk.Some? && cl.desk.value.Minting? && cl.desk.value.token in w.rows && next !in w.rows
       case Strike(_, _) => cl.desk.Some? && cl.desk.value.Striking?
       case Deliver(_) => cl.back != []
       case Clear(_) => cl.flight.Settled?
       case Lose(_) => cl.sent != [] || cl.desk.Some? || cl.back != []
       case LostExchange(_, i, _) => i < |cl.lost| && cl.lost[i].Judged?
       case LostMint(_, i, next) => i < |cl.lost| && cl.lost[i].Minting? && cl.lost[i].token in w.rows && next !in w.rows
       case LostStrike(_, i, _) => i < |cl.lost| && cl.lost[i].Striking?
       case LostDrop(_, i) => i < |cl.lost|
       case LoginServed(_, _, token) => cl.login.None? && token !in w.rows
       case LoginDelivered(_) => cl.login.Some?
       case LogoutCall(_) => true
       case LogoutServe(_, _) => cl.outs != []
       case LogoutDeliver(_) => cl.gone != []
       case LogoutLose(_, answered) => if answered then cl.gone != [] else cl.outs != []
  }

  /** What the server does with a request on its arrival. */
  function Arrives(rows: R.Table, request: Option<string>, expired: bool): R.Work {
    if request.None? then R.Over else R.Looked(rows, request.value, expired)
  }

  /** The client's side of it: an answer at once, or a rotation on the desk. */
  function Received(cl: Client, work: R.Work): Client
    requires cl.sent != []
  {
    var request := cl.sent[0];
    if !work.Over? then cl.(sent := cl.sent[1..], desk := Some(work))
    else cl.(sent := cl.sent[1..], back := cl.back + [Reply(request, if request.None? then NoCookie else Denied)])
  }

  function Answered(cl: Client, request: Option<string>, answer: Answer): Client {
    cl.(desk := None, back := cl.back + [Reply(request, answer)])
  }

  // ----- which tokens go stale ------------------------------------------------------------------

  /** The exchange or the logout of the token is done, and the client has not heard yet. */
  predicate Ends(cl: Client, t: string) {
    || cl.desk == Some(R.Minting(t))
    || (cl.back != [] && cl.back[0].answer.Minted? && cl.back[0].request == Some(t))
    || Some(t) in cl.gone
  }

  ghost predicate Underway(w: World, t: string) {
    exists d :: 0 <= d < |w.clients| && Ends(w.clients[d], t)
  }

  /** A refresh request with this token is on its way to the server. */
  predicate Asks(cl: Client, t: string) {
    cl.sent != [] && cl.sent[0] == Some(t)
  }

  /** ... from a client other than c. */
  ghost predicate OtherAsks(w: World, c: nat, t: string) {
    exists d :: 0 <= d < |w.clients| && d != c && Asks(w.clients[d], t)
  }

  ghost predicate SomeAsks(w: World, t: string) {
    exists d :: 0 <= d < |w.clients| && Asks(w.clients[d], t)
  }

  /** The answer to the token's exchange is on its way to the client, or being written. */
  predicate ExchangeEnds(cl: Client, t: string) {
    || cl.desk == Some(R.Minting(t))
    || (cl.back != [] && cl.back[0].answer.Minted? && cl.back[0].request == Some(t))
  }

  /**
   * The token that this action makes stale, told from messages alone: the answer to its exchange or its logout
   * is lost while it is still the cookie; it is exchanged or logged out while a request with it is on its way to the
   * server; it is exchanged for nobody while it is still the cookie; or it is sent while the answer to its exchange or
   * its logout is under way.
   */
  ghost predicate Spoils(w: World, a: Action, t: string)
    requires Enabled(w, a)
  {
    var cl := w.clients[a.c];
    var cookie := w.cookies[cl.jar];
    match a
    case Lose(_) => ExchangeEnds(cl, t) && cookie == Some(t)
    case LogoutLose(_, answered) => answered && cl.gone[0] == Some(t) && cookie == Some(t)
    case Exchange(_, _) => cl.desk.value.token == t && SomeAsks(w, t)
    case LostExchange(_, i, _) => cl.lost[i].token == t && (SomeAsks(w, t) || cookie == Some(t))
    case LogoutServe(_, _) => cl.outs[0] == Some(t) && SomeAsks(w, t)
    case Call(_, _) => cl.flight.Idle? && cookie == Some(t) && Underway(w, t)
    case _ => false
  }

  /** The token the action speaks of. */
  function Subject(w: World, a: Action): Option<string>
    requires Enabled(w, a)
  {
    var cl := w.clients[a.c];
    match a
    case Lose(_) => w.cookies[cl.jar]
    case LogoutLose(_, answered) => if answered then cl.gone[0] else None
    case Exchange(_, _) => Some(cl.desk.value.token)
    case LostExchange(_, i, _) => Some(cl.lost[i].token)
    case LogoutServe(_, _) => cl.outs[0]
    case Call(_, _) => w.cookies[cl.jar]
    case _ => None
  }

  ghost function Spoiled(w: World, a: Action): set<string>
    requires Enabled(w, a)
  {
    var t := Subject(w, a);
    if t.Some? && Spoils(w, a, t.value) then {t.value} else {}
  }

  // ----- one action ---------------------------------------------------------------------------------

  function After(w: World, a: Action): World
    requires Enabled(w, a)
  {
    var cl := w.clients[a.c];
    var rows, cookie := w.rows, w.cookies[cl.jar];
    match a
    case Call(c, caller) => w.(clients := w.clients[c := Ask(cl, cookie, caller)])
    case Look(c, expired) =>
      var work := Arrives(rows, cl.sent[0], expired);
      w.(clients := w.clients[c := Received(cl, work)], reused := w.reused || work.Striking?)
    case Refuse(c) => w.(clients := w.clients[c := Answered(cl, Some(cl.desk.value.token), Denied)])
    case Exchange(c, now) =>
      var t := cl.desk.value.token;
      w.(rows := R.Revoke(rows, t, now), clients := w.clients[c := cl.(desk := Some(R.Minting(t)))])
    case Mint(c, next) =>
      var t := cl.desk.value.token;
      w.(rows := R.Replaced(rows, t, next), clients := w.clients[c := Answered(cl, Some(t), Minted(next))])
    case Strike(c, now) =>
      w.(rows := R.RevokeUser(rows, cl.desk.value.user, now), clients := w.clients[c := Answered(cl, None, Denied)])
    case Deliver(c) =>
      var answer := cl.back[0].answer;
      w.(clients := w.clients[c := Resolve(cl.(back := cl.back[1..]), answer.Minted?)],
         cookies := w.cookies[cl.jar := SetCookie(cookie, answer)])
    case Clear(c) => w.(clients := w.clients[c := cl.(flight := Idle)])
    case Lose(c) => w.(clients := w.clients[c := Resolve(GiveUp(cl), false)])
    case LostExchange(c, i, now) =>
      var t := cl.lost[i].token;
      w.(rows := R.Revoke(rows, t, now), clients := w.clients[c := cl.(lost := cl.lost[i := R.Minting(t)])])
    case LostMint(c, i, next) =>
      w.(rows := R.Replaced(rows, cl.lost[i].token, next), clients := w.clients[c := cl.(lost := cl.lost[i := R.Over])])
    case LostStrike(c, i, now) =>
      w.(rows := R.RevokeUser(rows, cl.lost[i].user, now), clients := w.clients[c := cl.(lost := cl.lost[i := R.Over])])
    case LostDrop(c, i) => w.(clients := w.clients[c := cl.(lost := cl.lost[i := R.Over])])
    case LoginServed(c, user, token) =>
      w.(rows := R.Issued(rows, user, token, w.logins), logins := w.logins + 1, clients := w.clients[c := cl.(login := Some(token))])
    case LoginDelivered(c) =>
      w.(clients := w.clients[c := cl.(login := None, access := true)], cookies := w.cookies[cl.jar := cl.login])
    case LogoutCall(c) => w.(clients := w.clients[c := cl.(outs := cl.outs + [cookie])])
    case LogoutServe(c, now) =>
      w.(rows := if cl.outs[0].None? then rows else R.Revoke(rows, cl.outs[0].value, now),
         clients := w.clients[c := cl.(outs := cl.outs[1..], gone := cl.gone + [cl.outs[0]])])
    case LogoutDeliver(c) =>
      w.(clients := w.clients[c := cl.(gone := cl.gone[1..], access := false)], cookies := w.cookies[cl.jar := None])
    case LogoutLose(c, answered) =>
      w.(clients := w.clients[c := if answered then cl.(gone := cl.gone[1..], access := false)
                                   else cl.(outs := cl.outs[1..], access := false)])
  }

  ghost function Next(w: World, a: Action): World {
    if !Enabled(w, a) then w else After(w, a).(stale := w.stale + Spoiled(w, a))
  }

  ghost function Run(w: World, actions: seq<Action>): World {
    if actions == [] then w else Next(Run(w, actions[..|actions| - 1]), actions[|actions| - 1])
  }

  // ----- what holds until the first reuse --------------------------------------------------------------

  /** A token in an answer still on its way: nobody has used it yet. */
  predicate Awaits(cl: Client, t: string) {
    || (cl.back != [] && cl.back[0].answer == Minted(t))
    || cl.login == Some(t)
  }

  /** A token the client has put into a request whose story is not over. */
  predicate Uses(cl: Client, t: string) {
    || Asks(cl, t)
    || cl.desk == Some(R.Judged(t)) || cl.desk == Some(R.Minting(t))
    || (cl.back != [] && cl.back[0].request == Some(t))
    || R.Judged(t) in cl.lost || R.Minting(t) in cl.lost
    || Some(t) in cl.outs
    || Some(t) in cl.gone
  }

  /** At most one refresh is under way, exactly while the promise is pending, and callers wait only then. */
  ghost predicate FlightOk(cl: Client) {
    && |cl.sent| + (if cl.desk.Some? then 1 else 0) + |cl.back| == (if cl.flight.Flying? then 1 else 0)
    && (cl.waiting != {} ==> cl.flight.Flying?)
  }

  /** No rotation has found a revoked token. */
  predicate Calm(cl: Client) {
    (cl.desk.Some? ==> !cl.desk.value.Striking?) && forall i :: 0 <= i < |cl.lost| ==> !cl.lost[i].Striking?
  }

  ghost predicate ClientOk(rows: R.Table, stale: set<string>, cl: Client) {
    && FlightOk(cl) && Calm(cl)
    && (forall t :: Uses(cl, t) ==> t in rows)
    && (forall t :: Awaits(cl, t) ==> R.Live(rows, t))
    && (forall t :: Ends(cl, t) ==> R.Revoked(rows, t))
    && (forall t :: Asks(cl, t) ==> (R.Revoked(rows, t) <==> t in stale))
    && (cl.login.Some? && cl.back != [] ==> cl.back[0].answer != Minted(cl.login.value))
  }

  ghost predicate ClientsOk(w: World) {
    forall c :: 0 <= c < |w.clients| ==> w.clients[c].jar < |w.cookies| && ClientOk(w.rows, w.stale, w.clients[c])
  }

  /** A jar's cookie is revoked exactly when it is stale or the answer that replaces it is under way. */
  ghost predicate CookieOk(w: World, t: string) {
    t in w.rows && (R.Revoked(w.rows, t) <==> t in w.stale || Underway(w, t))
  }

  ghost predicate JarsOk(w: World) {
    && (forall j :: 0 <= j < |w.cookies| && w.cookies[j].Some? ==> CookieOk(w, w.cookies[j].value))
    && (forall i, j :: 0 <= i < j < |w.cookies| && w.cookies[i].Some? ==> w.cookies[i] != w.cookies[j])
  }

  /** Answers on their way carry new tokens, each its own; a token in use belongs to one jar. */
  ghost predicate Apart(w: World) {
    && (forall c, d, t :: 0 <= c < |w.clients| && 0 <= d < |w.clients| && Awaits(w.clients[c], t) ==>
          !Uses(w.clients[d], t) && (Awaits(w.clients[d], t) ==> c == d))
    && (forall c, d, t :: 0 <= c < |w.clients| && 0 <= d < |w.clients| && Uses(w.clients[c], t) && Uses(w.clients[d], t) ==>
          w.clients[c].jar == w.clients[d].jar)
    && (forall c, j, t :: 0 <= c < |w.clients| && 0 <= j < |w.cookies| && w.cookies[j] == Some(t) ==>
          !Awaits(w.clients[c], t) && (Uses(w.clients[c], t) ==> w.clients[c].jar == j))
  }

  ghost predicate StaleOk(w: World) {
    forall t :: t in w.stale ==> R.Revoked(w.rows, t)
  }

  ghost predicate WorldOk(w: World) {
    !w.reused && ClientsOk(w) && JarsOk(w) && Apart(w) && StaleOk(w)
  }

  /** A stale token is looked up. */
  ghost predicate Presents(w: World, a: Action) {
    Enabled(w, a) && a.Look? && w.clients[a.c].sent[0].Some? && w.clients[a.c].sent[0].value in w.stale
  }

  // ----- each action keeps it ------------------------------------------------------------------------------

  lemma StartOk(jars: nat, places: seq<nat>)
    requires forall c :: 0 <= c < |places| ==> places[c] < jars
    ensures WorldOk(Start(jars, places))
  {
  }

  /** One client moves, with its jar; `v` stays right if what the client itself sees is right. */
  ghost predicate Moves(w: World, v: World, c: nat) {
    && c < |w.clients| == |v.clients| && w.clients[c].jar < |w.cookies| == |v.cookies|
    && var jar := w.clients[c].jar;
       && v.clients == w.clients[c := v.clients[c]] && v.clients[c].jar == jar
       && v.cookies == w.cookies[jar := v.cookies[jar]]
  }

  /** Only tokens in the client's hand change in the table and among the stale. */
  ghost predicate TokensOk(w: World, v: World, c: nat)
    requires Moves(w, v, c)
  {
    var cl, jar := w.clients[c], w.clients[c].jar;
    && (forall t :: t in w.rows ==> t in v.rows)
    && (forall t :: R.Revoked(w.rows, t) ==> R.Revoked(v.rows, t))
    && (forall t :: R.Live(w.rows, t) && R.Revoked(v.rows, t) ==> Uses(cl, t) && (OtherAsks(w, c, t) ==> t in v.stale))
    && (forall t :: t in w.stale ==> t in v.stale)
    && (forall t :: t in v.stale && t !in w.stale ==> R.Revoked(v.rows, t) && (Uses(cl, t) || w.cookies[jar] == Some(t)))
  }

  /** Its messages carry the tokens it had in hand, its jar's, and new ones. */
  ghost predicate MessagesOk(w: World, v: World, c: nat)
    requires Moves(w, v, c)
  {
    var cl, after, jar := w.clients[c], v.clients[c], w.clients[c].jar;
    && (forall t :: Awaits(after, t) ==> Awaits(cl, t) || t !in w.rows)
    && (forall t :: Uses(after, t) ==> Uses(cl, t) || w.cookies[jar] == Some(t))
  }

  ghost predicate Touches(w: World, v: World, c: nat)
    requires Moves(w, v, c)
  {
    TokensOk(w, v, c) && MessagesOk(w, v, c)
  }

  ghost predicate OwnJarOk(w: World, v: World, c: nat)
    requires Moves(w, v, c)
  {
    var cl, after, jar := w.clients[c], v.clients[c], w.clients[c].jar;
    v.cookies[jar].Some? ==>
      && CookieOk(v, v.cookies[jar].value)
      && (v.cookies[jar] == w.cookies[jar] || (Awaits(cl, v.cookies[jar].value) && !Awaits(after, v.cookies[jar].value)))
  }

  lemma OthersOk(w: World, v: World, c: nat)
    requires WorldOk(w) && Moves(w, v, c) && Touches(w, v, c)
    requires ClientOk(v.rows, v.stale, v.clients[c])
    ensures ClientsOk(v) && StaleOk(v)
  {
    forall d | 0 <= d < |w.clients| && d != c
      ensures ClientOk(v.rows, v.stale, v.clients[d])
    {
      var other := w.clients[d];
      assert v.clients[d] == other && ClientOk(w.rows, w.stale, other);
      forall t | Awaits(other, t)
        ensures R.Live(v.rows, t)
      {
        assert !Uses(w.clients[c], t);
      }
      forall t | Asks(other, t)
        ensures R.Revoked(v.rows, t) <==> t in v.stale
      {
        assert OtherAsks(w, c, t);
        assert Uses(other, t);
      }
    }
  }

  lemma OtherJarsOk(w: World, v: World, c: nat)
    requires WorldOk(w) && Moves(w, v, c) && Touches(w, v, c) && OwnJarOk(w, v, c)
    ensures JarsOk(v)
  {
    var jar := w.clients[c].jar;
    forall j | 0 <= j < |w.cookies| && j != jar && w.cookies[j].Some?
      ensures v.cookies[j] == w.cookies[j] && CookieOk(v, w.cookies[j].value) && v.cookies[j] != v.cookies[jar]
    {
      var t := w.cookies[j].value;
      assert w.cookies[j] == Some(t) && CookieOk(w, t);
      assert !Uses(w.clients[c], t) && !Awaits(w.clients[c], t) && w.cookies[jar] != Some(t);
      assert !Uses(v.clients[c], t);
      assert Underway(v, t) <==> Underway(w, t) by {
        assert forall d :: 0 <= d < |w.clients| ==> Ends(v.clients[d], t) == Ends(w.clients[d], t);
        if Underway(w, t) {
          var d :| 0 <= d < |w.clients| && Ends(w.clients[d], t);
          assert Ends(v.clients[d], t);
        }
      }
    }
  }

  lemma StaysApart(w: World, v: World, c: nat)
    requires WorldOk(w) && Moves(w, v, c) && Touches(w, v, c) && OwnJarOk(w, v, c)
    ensures Apart(v)
  {
  }

  ghost predicate MoveOk(w: World, v: World, c: nat) {
    Moves(w, v, c) && Touches(w, v, c) && OwnJarOk(w, v, c) && ClientOk(v.rows, v.stale, v.clients[c]) && !v.reused
  }

  /** The endings under way change by the client's own only. */
  lemma UnderwayMoved(w: World, v: World, c: nat, t: string)
    requires Moves(w, v, c)
    ensures Underway(v, t) ==> Underway(w, t) || Ends(v.clients[c], t)
    ensures Underway(w, t) ==> Underway(v, t) || Ends(w.clients[c], t)
    ensures Ends(w.clients[c], t) ==> Underway(w, t)
    ensures Ends(v.clients[c], t) ==> Underway(v, t)
  {
    if Underway(w, t) {
      var d :| 0 <= d < |w.clients| && Ends(w.clients[d], t);
      assert d != c ==> v.clients[d] == w.clients[d];
    }
  }

  /** What the client that moves may rely on. */
  ghost predicate Given(w: World, c: nat) {
    && !w.reused && c < |w.clients| && w.clients[c].jar < |w.cookies|
    && var cl, cookie := w.clients[c], w.cookies[w.clients[c].jar];
       && ClientOk(w.rows, w.stale, cl)
       && (forall t :: Awaits(cl, t) ==> !Uses(cl, t))
       && (cookie.Some? ==> CookieOk(w, cookie.value) && !Awaits(cl, cookie.value))
       && (forall t :: t in w.stale || Underway(w, t) ==> R.Revoked(w.rows, t))
  }

  lemma GivenHolds(w: World, c: nat)
    requires WorldOk(w) && c < |w.clients|
    ensures Given(w, c)
  {
  }


  // ----- what an action does to tokens ---------------------------------------------------------------

  /** The table stays, and only a token in the client's hand goes stale. */
  lemma SameTokens(w: World, v: World, c: nat)
    requires Moves(w, v, c) && v.rows == w.rows && (forall t :: t in w.stale ==> t in v.stale)
    requires forall t :: t in v.stale && t !in w.stale ==>
               R.Revoked(w.rows, t) && (Uses(w.clients[c], t) || w.cookies[w.clients[c].jar] == Some(t))
    ensures TokensOk(w, v, c)
  {
    hide Uses, OtherAsks;
  }

  /** A new token enters the table. */
  lemma NewToken(w: World, v: World, c: nat, next: string, row: R.Row)
    requires Moves(w, v, c) && next !in w.rows && v.rows == w.rows[next := row] && row.revokedAt.None? && v.stale == w.stale
    ensures TokensOk(w, v, c)
  {
    hide Uses, OtherAsks;
  }

  /** A token the client uses is revoked; it goes stale if others ask with it. */
  lemma RevokedToken(w: World, v: World, c: nat, token: string, now: nat)
    requires Moves(w, v, c) && token in w.rows && Uses(w.clients[c], token) && v.rows == R.Revoke(w.rows, token, now)
    requires v.stale == w.stale || v.stale == w.stale + {token}
    requires OtherAsks(w, c, token) ==> token in v.stale
    ensures TokensOk(w, v, c) && R.Revoked(v.rows, token)
    ensures forall t :: t in w.rows && t != token ==> t in v.rows && v.rows[t] == w.rows[t]
  {
    hide Uses, OtherAsks;
  }

  /** The table's new rows leave all it had as they were. */
  lemma SameFacts(rows: R.Table, next: string, row: R.Row)
    requires next !in rows
    ensures forall t :: t in rows ==> R.Revoked(rows[next := row], t) == R.Revoked(rows, t) && R.Live(rows[next := row], t) == R.Live(rows, t)
  {
  }

  /** The client's jar after a step that leaves its cookie. */
  lemma SameJar(w: World, v: World, c: nat)
    requires Moves(w, v, c) && Given(w, c) && v.cookies == w.cookies
    requires var cookie := w.cookies[w.clients[c].jar];
             cookie.Some? ==>
               && cookie.value in v.rows
               && (R.Revoked(v.rows, cookie.value) <==> cookie.value in v.stale || Underway(w, cookie.value) || Ends(v.clients[c], cookie.value))
               && (Ends(w.clients[c], cookie.value) ==> Ends(v.clients[c], cookie.value) || cookie.value in v.stale)
    ensures OwnJarOk(w, v, c)
  {
    var cookie := w.cookies[w.clients[c].jar];
    if cookie.Some? {
      UnderwayMoved(w, v, c, cookie.value);
      hide Underway, Ends;
      assert CookieOk(v, cookie.value);
    }
  }

  // ----- what an action does to the client's messages -------------------------------------------------

  /** A new token comes with the login and with the rotation's answer both. */
  predicate Twice(cl: Client) {
    cl.login.Some? && cl.back != [] && cl.back[0].answer == Minted(cl.login.value)
  }

  /**
   * The client's messages carry what they did, and at most: the jar's cookie, a new token, a token whose exchange or
   * logout is done now, a token asked with now.
   */
  ghost predicate Follows(cl: Client, after: Client, cookie: Option<string>, minted: Option<string>, ended: Option<string>, asked: Option<string>) {
    && FlightOk(after) && Calm(after)
    && (forall t :: Uses(after, t) ==> Uses(cl, t) || cookie == Some(t))
    && (forall t :: Awaits(after, t) ==> Awaits(cl, t) || minted == Some(t))
    && (forall t :: Ends(after, t) ==> Ends(cl, t) || ended == Some(t))
    && (forall t :: Asks(after, t) ==> Asks(cl, t) || asked == Some(t))
    && (Twice(after) ==> Twice(cl) || (minted.Some? && Awaits(cl, minted.value)))
  }

  /** Such a client stays right. */
  lemma StaysOk(w: World, v: World, c: nat, minted: Option<string>, ended: Option<string>, asked: Option<string>)
    requires Moves(w, v, c) && Given(w, c) && TokensOk(w, v, c)
    requires Follows(w.clients[c], v.clients[c], w.cookies[w.clients[c].jar], minted, ended, asked)
    requires minted.Some? ==> minted.value !in w.rows && R.Live(v.rows, minted.value)
    requires ended.Some? ==> R.Revoked(v.rows, ended.value)
    requires asked.Some? ==> asked == w.cookies[w.clients[c].jar] && (R.Revoked(v.rows, asked.value) <==> asked.value in v.stale)
    requires forall t :: Asks(w.clients[c], t) && R.Live(w.rows, t) && R.Revoked(v.rows, t) ==> t in v.stale
    ensures MessagesOk(w, v, c) && ClientOk(v.rows, v.stale, v.clients[c])
  {
    hide Uses, Ends, Asks, Underway, OtherAsks, FlightOk, Calm;
    var cl, after := w.clients[c], v.clients[c];
    assert forall t :: Awaits(cl, t) ==> t in w.rows;
    assert !Twice(cl);
    hide Awaits;
    forall t | Asks(after, t)
      ensures R.Revoked(v.rows, t) <==> t in v.stale
    {
      AskedIsUsed(after, t);
      if Asks(cl, t) {
        AskedIsUsed(cl, t);
      }
    }
  }

  lemma UsedIsKnown(w: World, c: nat, t: string)
    requires Given(w, c) && Uses(w.clients[c], t)
    ensures t in w.rows
  {
  }

  /** A new token that arrives becomes the cookie. */
  lemma NewCookie(w: World, v: World, c: nat, t: string)
    requires Moves(w, v, c) && Given(w, c) && v.rows == w.rows && v.stale == w.stale
    requires Awaits(w.clients[c], t) && !Awaits(v.clients[c], t) && v.cookies[w.clients[c].jar] == Some(t)
    requires forall x :: Ends(v.clients[c], x) ==> Ends(w.clients[c], x)
    ensures OwnJarOk(w, v, c)
  {
    UnderwayMoved(w, v, c, t);
    hide Underway, Ends, Uses, Awaits;
    assert R.Live(w.rows, t);
    assert CookieOk(v, t);
  }

  lemma AskedIsUsed(cl: Client, t: string)
    requires Asks(cl, t)
    ensures Uses(cl, t)
  {
  }

  lemma CallFollows(cl: Client, cookie: Option<string>, caller: nat)
    requires FlightOk(cl) && Calm(cl)
    ensures Follows(cl, Ask(cl, cookie, caller), cookie, None, None, if cl.flight.Idle? then cookie else None)
    ensures forall t :: Ends(cl, t) ==> Ends(Ask(cl, cookie, caller), t)
  {
  }

  lemma CallMoves(w: World, a: Action)
    requires a.Call? && Enabled(w, a) && Given(w, a.c)
    ensures MoveOk(w, Next(w, a), a.c)
  {
    var v, cl, cookie := Next(w, a), w.clients[a.c], w.cookies[w.clients[a.c].jar];
    var after := Ask(cl, cookie, a.caller);
    assert v.clients == w.clients[a.c := after] && v.cookies == w.cookies && v.rows == w.rows && !v.reused;
    assert v.stale == w.stale + if cl.flight.Idle? && cookie.Some? && Underway(w, cookie.value) then {cookie.value} else {};
    assert ClientOk(w.rows, w.stale, cl);
    hide Next, Enabled, Spoiled, Underway, SomeAsks, OtherAsks, Follows, Uses, Ends, Awaits, Asks, FlightOk, Calm;
    CallFollows(cl, cookie, a.caller);
    SameTokens(w, v, a.c);
    StaysOk(w, v, a.c, None, None, if cl.flight.Idle? then cookie else None);
    SameJar(w, v, a.c);
  }

  lemma LookFollows(cl: Client, work: R.Work, cookie: Option<string>)
    requires FlightOk(cl) && Calm(cl) && cl.sent != []
    requires !work.Striking? && !work.Minting? && (work.Judged? ==> cl.sent[0] == Some(work.token))
    ensures Follows(cl, Received(cl, work), cookie, None, None, None)
    ensures forall t :: Ends(cl, t) ==> Ends(Received(cl, work), t)
  {
  }

  lemma LookMoves(w: World, a: Action)
    requires a.Look? && Enabled(w, a) && Given(w, a.c) && !Presents(w, a)
    ensures MoveOk(w, Next(w, a), a.c)
  {
    var v, cl, cookie := Next(w, a), w.clients[a.c], w.cookies[w.clients[a.c].jar];
    var work := Arrives(w.rows, cl.sent[0], a.expired);
    var after := Received(cl, work);
    assert v.clients == w.clients[a.c := after] && v.cookies == w.cookies && v.rows == w.rows && !v.reused;
    assert v.stale == w.stale;
    assert ClientOk(w.rows, w.stale, cl);
    assert cl.sent[0].Some? ==> Asks(cl, cl.sent[0].value) && !R.Revoked(w.rows, cl.sent[0].value);
    hide Next, Enabled, Spoiled, Underway, SomeAsks, OtherAsks, Follows, Uses, Ends, Awaits, Asks, FlightOk, Calm;
    LookFollows(cl, work, cookie);
    SameTokens(w, v, a.c);
    StaysOk(w, v, a.c, None, None, None);
    SameJar(w, v, a.c);
  }

  lemma RefuseFollows(cl: Client, cookie: Option<string>)
    requires FlightOk(cl) && Calm(cl) && cl.desk.Some? && cl.desk.value.Judged?
    ensures Follows(cl, Answered(cl, Some(cl.desk.value.token), Denied), cookie, None, None, None)
    ensures forall t :: Ends(cl, t) ==> Ends(Answered(cl, Some(cl.desk.value.token), Denied), t)
  {
  }

  lemma RefuseMoves(w: World, a: Action)
    requires a.Refuse? && Enabled(w, a) && Given(w, a.c)
    ensures MoveOk(w, Next(w, a), a.c)
  {
    var v, cl, cookie := Next(w, a), w.clients[a.c], w.cookies[w.clients[a.c].jar];
    var after := Answered(cl, Some(cl.desk.value.token), Denied);
    assert v.clients == w.clients[a.c := after] && v.cookies == w.cookies && v.rows == w.rows && !v.reused;
    assert v.stale == w.stale;
    assert ClientOk(w.rows, w.stale, cl);
    hide Next, Enabled, Spoiled, Underway, SomeAsks, OtherAsks, Follows, Uses, Ends, Awaits, Asks, FlightOk, Calm;
    RefuseFollows(cl, cookie);
    SameTokens(w, v, a.c);
    StaysOk(w, v, a.c, None, None, None);
    SameJar(w, v, a.c);
  }

  lemma ExchangeFollows(cl: Client, cookie: Option<string>)
    requires FlightOk(cl) && Calm(cl) && cl.desk.Some? && cl.desk.value.Judged?
    ensures Follows(cl, cl.(desk := Some(R.Minting(cl.desk.value.token))), cookie, None, Some(cl.desk.value.token), None)
    ensures (forall t :: Ends(cl, t) ==> Ends(cl.(desk := Some(R.Minting(cl.desk.value.token))), t)) && Uses(cl, cl.desk.value.token)
    ensures Ends(cl.(desk := Some(R.Minting(cl.desk.value.token))), cl.desk.value.token)
  {
  }

  lemma ExchangeMoves(w: World, a: Action)
    requires a.Exchange? && Enabled(w, a) && Given(w, a.c)
    ensures MoveOk(w, Next(w, a), a.c)
  {
    var v, cl, cookie := Next(w, a), w.clients[a.c], w.cookies[w.clients[a.c].jar];
    var token := cl.desk.value.token;
    var after := cl.(desk := Some(R.Minting(token)));
    assert v.clients == w.clients[a.c := after] && v.cookies == w.cookies && v.rows == R.Revoke(w.rows, token, a.now) && !v.reused;
    assert v.stale == w.stale + if SomeAsks(w, token) then {token} else {};
    assert ClientOk(w.rows, w.stale, cl);
    assert OtherAsks(w, a.c, token) ==> SomeAsks(w, token);
    assert forall t :: Asks(cl, t) ==> SomeAsks(w, t);
    hide Next, Enabled, Spoiled, Underway, SomeAsks, OtherAsks, Follows, Uses, Ends, Awaits, Asks, FlightOk, Calm;
    ExchangeFollows(cl, cookie);
    hide R.Revoke;
    assert token in w.rows by { UsedIsKnown(w, a.c, token); }
    RevokedToken(w, v, a.c, token, a.now);
    StaysOk(w, v, a.c, None, Some(token), None);
    SameJar(w, v, a.c);
  }

  lemma MintFollows(cl: Client, cookie: Option<string>, next: string)
    requires FlightOk(cl) && Calm(cl) && cl.desk.Some? && cl.desk.value.Minting?
    ensures Follows(cl, Answered(cl, Some(cl.desk.value.token), Minted(next)), cookie, Some(next), None, None)
    ensures forall t :: Ends(cl, t) ==> Ends(Answered(cl, Some(cl.desk.value.token), Minted(next)), t)
  {
  }

  lemma MintMoves(w: World, a: Action)
    requires a.Mint? && Enabled(w, a) && Given(w, a.c)
    ensures MoveOk(w, Next(w, a), a.c)
  {
    var v, cl, cookie := Next(w, a), w.clients[a.c], w.cookies[w.clients[a.c].jar];
    var token := cl.desk.value.token;
    var after := Answered(cl, Some(token), Minted(a.next));
    assert v.clients == w.clients[a.c := after] && v.cookies == w.cookies && v.rows == w.rows[a.next := v.rows[a.next]] && R.Live(v.rows, a.next) && !v.reused;
    assert v.stale == w.stale;
    assert ClientOk(w.rows, w.stale, cl);
    hide Next, Enabled, Spoiled, Underway, SomeAsks, OtherAsks, Follows, Uses, Ends, Awaits, Asks, FlightOk, Calm;
    MintFollows(cl, cookie, a.next);
    NewToken(w, v, a.c, a.next, v.rows[a.next]);
    SameFacts(w.rows, a.next, v.rows[a.next]);
    StaysOk(w, v, a.c, Some(a.next), None, None);
    SameJar(w, v, a.c);
  }

  lemma DeliverFollows(cl: Client, cookie: Option<string>)
    requires FlightOk(cl) && Calm(cl) && cl.back != []
    ensures Follows(cl, Resolve(cl.(back := cl.back[1..]), cl.back[0].answer.Minted?), cookie, None, None, None)
    ensures !cl.back[0].answer.Minted? ==> forall t :: Ends(cl, t) ==> Ends(Resolve(cl.(back := cl.back[1..]), false), t)
    ensures cl.back[0].answer.Minted? ==> Awaits(cl, cl.back[0].answer.token)
    ensures Resolve(cl.(back := cl.back[1..]), cl.back[0].answer.Minted?).back == []
  {
  }

  lemma DeliverMoves(w: World, a: Action)
    requires a.Deliver? && Enabled(w, a) && Given(w, a.c)
    ensures MoveOk(w, Next(w, a), a.c)
  {
    var v, cl, cookie := Next(w, a), w.clients[a.c], w.cookies[w.clients[a.c].jar];
    var answer := cl.back[0].answer;
    var after := Resolve(cl.(back := cl.back[1..]), answer.Minted?);
    assert v.clients == w.clients[a.c := after] && v.cookies == w.cookies[cl.jar := SetCookie(cookie, answer)] && v.rows == w.rows && !v.reused;
    assert v.stale == w.stale;
    assert ClientOk(w.rows, w.stale, cl);
    assert answer.Minted? ==> !Awaits(after, answer.token) by { assert !Twice(cl) && |cl.back| == 1; }
    hide Next, Enabled, Spoiled, Underway, SomeAsks, OtherAsks, Follows, Uses, Ends, Awaits, Asks, FlightOk, Calm;
    DeliverFollows(cl, cookie);
    SameTokens(w, v, a.c);
    StaysOk(w, v, a.c, None, None, None);
    if answer.Minted? {
      NewCookie(w, v, a.c, answer.token);
    } else {
      SameJar(w, v, a.c);
    }
  }

  lemma ClearFollows(cl: Client, cookie: Option<string>)
    requires FlightOk(cl) && Calm(cl) && cl.flight.Settled?
    ensures Follows(cl, cl.(flight := Idle), cookie, None, None, None)
    ensures forall t :: Ends(cl, t) ==> Ends(cl.(flight := Idle), t)
  {
  }

  lemma ClearMoves(w: World, a: Action)
    requires a.Clear? && Enabled(w, a) && Given(w, a.c)
    ensures MoveOk(w, Next(w, a), a.c)
  {
    var v, cl, cookie := Next(w, a), w.clients[a.c], w.cookies[w.clients[a.c].jar];
    var after := cl.(flight := Idle);
    assert v.clients == w.clients[a.c := after] && v.cookies == w.cookies && v.rows == w.rows && !v.reused;
    assert v.stale == w.stale;
    assert ClientOk(w.rows, w.stale, cl);
    hide Next, Enabled, Spoiled, Underway, SomeAsks, OtherAsks, Follows, Uses, Ends, Awaits, Asks, FlightOk, Calm;
    ClearFollows(cl, cookie);
    SameTokens(w, v, a.c);
    StaysOk(w, v, a.c, None, None, None);
    SameJar(w, v, a.c);
  }

  lemma LoseFollows(cl: Client, cookie: Option<string>)
    requires FlightOk(cl) && Calm(cl)
    ensures Follows(cl, Resolve(GiveUp(cl), false), cookie, None, None, None)
    ensures forall t :: Ends(cl, t) ==> Ends(Resolve(GiveUp(cl), false), t) || ExchangeEnds(cl, t)
  {
  }

  lemma LoseMoves(w: World, a: Action)
    requires a.Lose? && Enabled(w, a) && Given(w, a.c)
    ensures MoveOk(w, Next(w, a), a.c)
  {
    var v, cl, cookie := Next(w, a), w.clients[a.c], w.cookies[w.clients[a.c].jar];
    var after := Resolve(GiveUp(cl), false);
    assert v.clients == w.clients[a.c := after] && v.cookies == w.cookies && v.rows == w.rows && !v.reused;
    assert v.stale == w.stale + if cookie.Some? && ExchangeEnds(cl, cookie.value) then {cookie.value} else {};
    assert ClientOk(w.rows, w.stale, cl);
    assert forall t :: ExchangeEnds(cl, t) ==> Ends(cl, t);
    hide ExchangeEnds;
    hide Next, Enabled, Spoiled, Underway, SomeAsks, OtherAsks, Follows, Uses, Ends, Awaits, Asks, FlightOk, Calm;
    LoseFollows(cl, cookie);
    SameTokens(w, v, a.c);
    StaysOk(w, v, a.c, None, None, None);
    SameJar(w, v, a.c);
  }

  /** Replacing one lost rotation. */
  lemma LostMember(lost: seq<R.Work>, i: nat, work: R.Work)
    requires i < |lost|
    ensures forall x :: x in lost[i := work] ==> x in lost || x == work
  {
  }

  lemma LostExchangeFollows(cl: Client, cookie: Option<string>, i: nat)
    requires FlightOk(cl) && Calm(cl) && i < |cl.lost| && cl.lost[i].Judged?
    ensures Follows(cl, cl.(lost := cl.lost[i := R.Minting(cl.lost[i].token)]), cookie, None, None, None)
    ensures (forall t :: Ends(cl, t) ==> Ends(cl.(lost := cl.lost[i := R.Minting(cl.lost[i].token)]), t)) && Uses(cl, cl.lost[i].token)
  {
    LostMember(cl.lost, i, R.Minting(cl.lost[i].token));
    assert cl.lost[i] in cl.lost;
  }

  lemma LostExchangeMoves(w: World, a: Action)
    requires a.LostExchange? && Enabled(w, a) && Given(w, a.c)
    ensures MoveOk(w, Next(w, a), a.c)
  {
    var v, cl, cookie := Next(w, a), w.clients[a.c], w.cookies[w.clients[a.c].jar];
    var token := cl.lost[a.i].token;
    var after := cl.(lost := cl.lost[a.i := R.Minting(token)]);
    assert v.clients == w.clients[a.c := after] && v.cookies == w.cookies && v.rows == R.Revoke(w.rows, token, a.now) && !v.reused;
    assert v.stale == w.stale + if SomeAsks(w, token) || cookie == Some(token) then {token} else {};
    assert ClientOk(w.rows, w.stale, cl);
    assert OtherAsks(w, a.c, token) ==> SomeAsks(w, token);
    assert forall t :: Asks(cl, t) ==> SomeAsks(w, t);
    hide Next, Enabled, Spoiled, Underway, SomeAsks, OtherAsks, Follows, Uses, Ends, Awaits, Asks, FlightOk, Calm;
    LostExchangeFollows(cl, cookie, a.i);
    hide R.Revoke;
    assert token in w.rows by { UsedIsKnown(w, a.c, token); }
    RevokedToken(w, v, a.c, token, a.now);
    StaysOk(w, v, a.c, None, None, None);
    SameJar(w, v, a.c);
  }

  lemma LostOverFollows(cl: Client, cookie: Option<string>, i: nat)
    requires FlightOk(cl) && Calm(cl) && i < |cl.lost|
    ensures Follows(cl, cl.(lost := cl.lost[i := R.Over]), cookie, None, None, None)
    ensures forall t :: Ends(cl, t) ==> Ends(cl.(lost := cl.lost[i := R.Over]), t)
  {
    LostMember(cl.lost, i, R.Over);
  }

  lemma LostMintMoves(w: World, a: Action)
    requires a.LostMint? && Enabled(w, a) && Given(w, a.c)
    ensures MoveOk(w, Next(w, a), a.c)
  {
    var v, cl, cookie := Next(w, a), w.clients[a.c], w.cookies[w.clients[a.c].jar];
    var after := cl.(lost := cl.lost[a.i := R.Over]);
    assert v.clients == w.clients[a.c := after] && v.cookies == w.cookies && v.rows == w.rows[a.next := v.rows[a.next]] && R.Live(v.rows, a.next) && !v.reused;
    assert v.stale == w.stale;
    assert ClientOk(w.rows, w.stale, cl);
    hide Next, Enabled, Spoiled, Underway, SomeAsks, OtherAsks, Follows, Uses, Ends, Awaits, Asks, FlightOk, Calm;
    LostOverFollows(cl, cookie, a.i);
    NewToken(w, v, a.c, a.next, v.rows[a.next]);
    SameFacts(w.rows, a.next, v.rows[a.next]);
    StaysOk(w, v, a.c, None, None, None);
    SameJar(w, v, a.c);
  }

  lemma LostDropMoves(w: World, a: Action)
    requires a.LostDrop? && Enabled(w, a) && Given(w, a.c)
    ensures MoveOk(w, Next(w, a), a.c)
  {
    var v, cl, cookie := Next(w, a), w.clients[a.c], w.cookies[w.clients[a.c].jar];
    var after := cl.(lost := cl.lost[a.i := R.Over]);
    assert v.clients == w.clients[a.c := after] && v.cookies == w.cookies && v.rows == w.rows && !v.reused;
    assert v.stale == w.stale;
    assert ClientOk(w.rows, w.stale, cl);
    hide Next, Enabled, Spoiled, Underway, SomeAsks, OtherAsks, Follows, Uses, Ends, Awaits, Asks, FlightOk, Calm;
    LostOverFollows(cl, cookie, a.i);
    SameTokens(w, v, a.c);
    StaysOk(w, v, a.c, None, None, None);
    SameJar(w, v, a.c);
  }

  lemma LoginServedFollows(cl: Client, cookie: Option<string>, token: string)
    requires FlightOk(cl) && Calm(cl) && cl.login.None?
    ensures Follows(cl, cl.(login := Some(token)), cookie, Some(token), None, None)
    ensures forall t :: Ends(cl, t) ==> Ends(cl.(login := Some(token)), t)
  {
  }

  lemma LoginServedMoves(w: World, a: Action)
    requires a.LoginServed? && Enabled(w, a) && Given(w, a.c)
    ensures MoveOk(w, Next(w, a), a.c)
  {
    var v, cl, cookie := Next(w, a), w.clients[a.c], w.cookies[w.clients[a.c].jar];
    var after := cl.(login := Some(a.token));
    assert v.clients == w.clients[a.c := after] && v.cookies == w.cookies && v.rows == w.rows[a.token := v.rows[a.token]] && R.Live(v.rows, a.token) && !v.reused;
    assert v.stale == w.stale;
    assert ClientOk(w.rows, w.stale, cl);
    hide Next, Enabled, Spoiled, Underway, SomeAsks, OtherAsks, Follows, Uses, Ends, Awaits, Asks, FlightOk, Calm;
    LoginServedFollows(cl, cookie, a.token);
    NewToken(w, v, a.c, a.token, v.rows[a.token]);
    SameFacts(w.rows, a.token, v.rows[a.token]);
    StaysOk(w, v, a.c, Some(a.token), None, None);
    SameJar(w, v, a.c);
  }

  lemma LoginDeliveredFollows(cl: Client, cookie: Option<string>)
    requires FlightOk(cl) && Calm(cl) && cl.login.Some?
    ensures Follows(cl, cl.(login := None, access := true), cookie, None, None, None)
    ensures Awaits(cl, cl.login.value)
  {
  }

  lemma LoginDeliveredMoves(w: World, a: Action)
    requires a.LoginDelivered? && Enabled(w, a) && Given(w, a.c)
    ensures MoveOk(w, Next(w, a), a.c)
  {
    var v, cl, cookie := Next(w, a), w.clients[a.c], w.cookies[w.clients[a.c].jar];
    var after := cl.(login := None, access := true);
    assert v.clients == w.clients[a.c := after] && v.cookies == w.cookies[cl.jar := cl.login] && v.rows == w.rows && !v.reused;
    assert v.stale == w.stale;
    assert ClientOk(w.rows, w.stale, cl);
    assert !Awaits(after, cl.login.value) by { assert !Twice(cl); }
    hide Next, Enabled, Spoiled, Underway, SomeAsks, OtherAsks, Follows, Uses, Ends, Awaits, Asks, FlightOk, Calm;
    LoginDeliveredFollows(cl, cookie);
    SameTokens(w, v, a.c);
    StaysOk(w, v, a.c, None, None, None);
    NewCookie(w, v, a.c, cl.login.value);
  }

  lemma LogoutCallFollows(cl: Client, cookie: Option<string>)
    requires FlightOk(cl) && Calm(cl)
    ensures Follows(cl, cl.(outs := cl.outs + [cookie]), cookie, None, None, None)
    ensures forall t :: Ends(cl, t) ==> Ends(cl.(outs := cl.outs + [cookie]), t)
  {
  }

  lemma LogoutCallMoves(w: World, a: Action)
    requires a.LogoutCall? && Enabled(w, a) && Given(w, a.c)
    ensures MoveOk(w, Next(w, a), a.c)
  {
    var v, cl, cookie := Next(w, a), w.clients[a.c], w.cookies[w.clients[a.c].jar];
    var after := cl.(outs := cl.outs + [cookie]);
    assert v.clients == w.clients[a.c := after] && v.cookies == w.cookies && v.rows == w.rows && !v.reused;
    assert v.stale == w.stale;
    assert ClientOk(w.rows, w.stale, cl);
    hide Next, Enabled, Spoiled, Underway, SomeAsks, OtherAsks, Follows, Uses, Ends, Awaits, Asks, FlightOk, Calm;
    LogoutCallFollows(cl, cookie);
    SameTokens(w, v, a.c);
    StaysOk(w, v, a.c, None, None, None);
    SameJar(w, v, a.c);
  }

  lemma LogoutServeFollows(cl: Client, cookie: Option<string>)
    requires FlightOk(cl) && Calm(cl) && cl.outs != []
    ensures Follows(cl, cl.(outs := cl.outs[1..], gone := cl.gone + [cl.outs[0]]), cookie, None, cl.outs[0], None)
    ensures forall t :: Ends(cl, t) ==> Ends(cl.(outs := cl.outs[1..], gone := cl.gone + [cl.outs[0]]), t)
    ensures cl.outs[0].Some? ==> Uses(cl, cl.outs[0].value) && Ends(cl.(outs := cl.outs[1..], gone := cl.gone + [cl.outs[0]]), cl.outs[0].value)
  {
    assert cl.outs[0] in cl.outs;
  }

  lemma LogoutServeTokens(w: World, v: World, c: nat, request: Option<string>, now: nat)
    requires Moves(w, v, c) && Given(w, c) && (request.Some? ==> Uses(w.clients[c], request.value))
    requires v.rows == (if request.None? then w.rows else R.Revoke(w.rows, request.value, now))
    requires v.stale == w.stale + if request.Some? && SomeAsks(w, request.value) then {request.value} else {}
    ensures TokensOk(w, v, c) && (request.Some? ==> R.Revoked(v.rows, request.value))
    ensures forall t :: t in w.rows && Some(t) != request ==> t in v.rows && v.rows[t] == w.rows[t]
    ensures forall t :: Asks(w.clients[c], t) && R.Live(w.rows, t) && R.Revoked(v.rows, t) ==> t in v.stale
  {
    assert request.Some? && OtherAsks(w, c, request.value) ==> SomeAsks(w, request.value);
    assert forall t :: Asks(w.clients[c], t) ==> SomeAsks(w, t);
    hide SomeAsks, OtherAsks, Uses, Asks, Underway;
    if request.Some? {
      UsedIsKnown(w, c, request.value);
      RevokedToken(w, v, c, request.value, now);
    } else {
      SameTokens(w, v, c);
    }
  }

  lemma LogoutServeMoves(w: World, a: Action)
    requires a.LogoutServe? && Enabled(w, a) && Given(w, a.c)
    ensures MoveOk(w, Next(w, a), a.c)
  {
    var v, cl, cookie := Next(w, a), w.clients[a.c], w.cookies[w.clients[a.c].jar];
    var request := cl.outs[0];
    var after := cl.(outs := cl.outs[1..], gone := cl.gone + [request]);
    assert v.clients == w.clients[a.c := after] && v.cookies == w.cookies && v.rows == (if request.None? then w.rows else R.Revoke(w.rows, request.value, a.now)) && !v.reused;
    assert v.stale == w.stale + if request.Some? && SomeAsks(w, request.value) then {request.value} else {};
    assert ClientOk(w.rows, w.stale, cl);
    hide Next, Enabled, Spoiled, Underway, SomeAsks, OtherAsks, Follows, Uses, Ends, Awaits, Asks, FlightOk, Calm;
    LogoutServeFollows(cl, cookie);
    LogoutServeTokens(w, v, a.c, request, a.now);
    hide R.Revoke, TokensOk;
    StaysOk(w, v, a.c, None, request, None);
    SameJar(w, v, a.c);
  }

  lemma LogoutDeliverFollows(cl: Client, cookie: Option<string>)
    requires FlightOk(cl) && Calm(cl) && cl.gone != []
    ensures Follows(cl, cl.(gone := cl.gone[1..], access := false), cookie, None, None, None)
  {
  }

  lemma LogoutDeliverMoves(w: World, a: Action)
    requires a.LogoutDeliver? && Enabled(w, a) && Given(w, a.c)
    ensures MoveOk(w, Next(w, a), a.c)
  {
    var v, cl, cookie := Next(w, a), w.clients[a.c], w.cookies[w.clients[a.c].jar];
    var after := cl.(gone := cl.gone[1..], access := false);
    assert v.clients == w.clients[a.c := after] && v.cookies == w.cookies[cl.jar := None] && v.rows == w.rows && !v.reused;
    assert v.stale == w.stale;
    assert ClientOk(w.rows, w.stale, cl);
    hide Next, Enabled, Spoiled, Underway, SomeAsks, OtherAsks, Follows, Uses, Ends, Awaits, Asks, FlightOk, Calm;
    LogoutDeliverFollows(cl, cookie);
    SameTokens(w, v, a.c);
    StaysOk(w, v, a.c, None, None, None);
  }

  lemma LogoutLoseFollows(cl: Client, cookie: Option<string>, answered: bool)
    requires FlightOk(cl) && Calm(cl)
    requires if answered then cl.gone != [] else cl.outs != []
    ensures Follows(cl, if answered then cl.(gone := cl.gone[1..], access := false) else cl.(outs := cl.outs[1..], access := false), cookie, None, None, None)
    ensures var after := if answered then cl.(gone := cl.gone[1..], access := false) else cl.(outs := cl.outs[1..], access := false);
            && (forall t :: Ends(cl, t) ==> Ends(after, t) || (answered && cl.gone[0] == Some(t)))
            && (forall t :: answered && cl.gone[0] == Some(t) ==> Ends(cl, t))
  {
  }

  lemma LogoutLoseMoves(w: World, a: Action)
    requires a.LogoutLose? && Enabled(w, a) && Given(w, a.c)
    ensures MoveOk(w, Next(w, a), a.c)
  {
    var v, cl, cookie := Next(w, a), w.clients[a.c], w.cookies[w.clients[a.c].jar];
    var after := if a.answered then cl.(gone := cl.gone[1..], access := false) else cl.(outs := cl.outs[1..], access := false);
    assert v.clients == w.clients[a.c := after] && v.cookies == w.cookies && v.rows == w.rows && !v.reused;
    assert v.stale == w.stale + if a.answered && cookie.Some? && cl.gone[0] == cookie then {cookie.value} else {};
    assert ClientOk(w.rows, w.stale, cl);
    hide Next, Enabled, Spoiled, Underway, SomeAsks, OtherAsks, Follows, Uses, Ends, Awaits, Asks, FlightOk, Calm;
    LogoutLoseFollows(cl, cookie, a.answered);
    SameTokens(w, v, a.c);
    StaysOk(w, v, a.c, None, None, None);
    SameJar(w, v, a.c);
  }

  lemma OneMoves(w: World, a: Action)
    requires Given(w, a.c) && Enabled(w, a) && !Presents(w, a)
    ensures MoveOk(w, Next(w, a), a.c)
  {
    NothingStrikes(w, a);
    hide Given, Enabled, Next, MoveOk, Presents;
    match a
    case Call(_, _) => CallMoves(w, a);
    case Look(_, _) => LookMoves(w, a);
    case Refuse(_) => RefuseMoves(w, a);
    case Exchange(_, _) => ExchangeMoves(w, a);
    case Mint(_, _) => MintMoves(w, a);
    case LostExchange(_, _, _) => LostExchangeMoves(w, a);
    case LostMint(_, _, _) => LostMintMoves(w, a);
    case LostDrop(_, _) => LostDropMoves(w, a);
    case Deliver(_) => DeliverMoves(w, a);
    case Clear(_) => ClearMoves(w, a);
    case Lose(_) => LoseMoves(w, a);
    case LoginServed(_, _, _) => LoginServedMoves(w, a);
    case LoginDelivered(_) => LoginDeliveredMoves(w, a);
    case LogoutCall(_) => LogoutCallMoves(w, a);
    case LogoutServe(_, _) => LogoutServeMoves(w, a);
    case LogoutDeliver(_) => LogoutDeliverMoves(w, a);
    case LogoutLose(_, _) => LogoutLoseMoves(w, a);
  }

  /** No rotation has found a revoked token yet. */
  lemma NothingStrikes(w: World, a: Action)
    requires Given(w, a.c) && Enabled(w, a)
    ensures !a.Strike? && !a.LostStrike?
  {
    hide Underway;
  }

  lemma AllMove(w: World, v: World, c: nat)
    requires WorldOk(w) && MoveOk(w, v, c)
    ensures WorldOk(v)
  {
    OthersOk(w, v, c);
    OtherJarsOk(w, v, c);
    StaysApart(w, v, c);
  }

  lemma StaleIsTakenForReuse(w: World, a: Action)
    requires ClientsOk(w) && Presents(w, a)
    ensures Next(w, a).reused
  {
    var cl := w.clients[a.c];
    assert ClientOk(w.rows, w.stale, cl) && Asks(cl, cl.sent[0].value);
  }

  /** Presenting a stale token is the one step that reaches the reuse branch; every other step keeps all in order. */
  lemma NextOk(w: World, a: Action)
    requires WorldOk(w)
    ensures if Presents(w, a) then Next(w, a).reused else WorldOk(Next(w, a))
  {
    if Presents(w, a) {
      StaleIsTakenForReuse(w, a);
    } else if Enabled(w, a) {
      hide WorldOk, Given, MoveOk, Next, Presents;
      assert a.c < |w.clients|;
      GivenHolds(w, a.c);
      OneMoves(w, a);
      AllMove(w, Next(w, a), a.c);
    }
  }

  predicate Housed(jars: nat, places: seq<nat>) {
    forall c :: 0 <= c < |places| ==> places[c] < jars
  }

  lemma {:induction false} RunOk(jars: nat, places: seq<nat>, actions: seq<Action>)
    requires Housed(jars, places)
    ensures WorldOk(Run(Start(jars, places), actions)) || Run(Start(jars, places), actions).reused
  {
    hide WorldOk, Next, Presents;
    if actions == [] {
      StartOk(jars, places);
    } else {
      var w := Run(Start(jars, places), actions[..|actions| - 1]);
      RunOk(jars, places, actions[..|actions| - 1]);
      if WorldOk(w) {
        NextOk(w, actions[|actions| - 1]);
      } else {
        ReuseStays(w, actions[|actions| - 1]);
      }
    }
  }

  lemma ReuseStays(w: World, a: Action)
    requires w.reused
    ensures Next(w, a).reused
  {
  }

  /** In a run not taken for theft so far, a step is taken for theft if and only if it serves a stale token. */
  lemma ReuseIffStale(jars: nat, places: seq<nat>, actions: seq<Action>, a: Action)
    requires Housed(jars, places) && !Run(Start(jars, places), actions).reused
    ensures var w := Run(Start(jars, places), actions);
            Next(w, a).reused <==> Presents(w, a)
  {
    var w := Run(Start(jars, places), actions);
    RunOk(jars, places, actions);
    hide Presents, Next;
    NextOk(w, a);
  }

  ghost predicate PresentsAt(w: World, actions: seq<Action>, i: nat)
    requires i < |actions|
  {
    Presents(Run(w, actions[..i]), actions[i])
  }

  /** Over whole runs: the reuse branch is reached if and only if a stale token is presented at some step. */
  lemma {:induction false} TakenForReuseIff(jars: nat, places: seq<nat>, actions: seq<Action>)
    requires Housed(jars, places)
    ensures Run(Start(jars, places), actions).reused <==> exists i :: 0 <= i < |actions| && PresentsAt(Start(jars, places), actions, i)
  {
    hide Presents, Next, WorldOk;
    var start := Start(jars, places);
    if actions != [] {
      var n := |actions| - 1;
      var init := actions[..n];
      var w := Run(start, init);
      TakenForReuseIff(jars, places, init);
      RunOk(jars, places, init);
      forall i | 0 <= i < n
        ensures PresentsAt(start, actions, i) == PresentsAt(start, init, i)
      {
        assert init[..i] == actions[..i];
      }
      assert PresentsAt(start, actions, n) == Presents(w, actions[n]);
      if w.reused {
        ReuseStays(w, actions[n]);
      } else {
        NextOk(w, actions[n]);
        NotReused(w, actions[n]);
      }
    }
  }

  lemma NotReused(w: World, a: Action)
    ensures WorldOk(w) ==> !w.reused
    ensures WorldOk(Next(w, a)) ==> !Next(w, a).reused
  {
  }

  // ----- when nothing goes stale ------------------------------------------------------------------------------

  ghost predicate Spoilt(w: World, actions: seq<Action>, i: nat)
    requires i < |actions|
  {
    var v := Run(w, actions[..i]);
    Enabled(v, actions[i]) && Spoiled(v, actions[i]) != {}
  }

  lemma {:induction false} NothingStale(w: World, actions: seq<Action>)
    requires w.stale == {}
    requires forall i :: 0 <= i < |actions| ==> !Spoilt(w, actions, i)
    ensures Run(w, actions).stale == {}
  {
    hide After, Spoiled, Enabled;
    if actions != [] {
      var n := |actions| - 1;
      forall i | 0 <= i < n
        ensures !Spoilt(w, actions[..n], i)
      {
        assert actions[..n][..i] == actions[..i];
        assert !Spoilt(w, actions, i);
      }
      NothingStale(w, actions[..n]);
      assert !Spoilt(w, actions, n);
      StaleAfter(Run(w, actions[..n]), actions[n]);
    }
  }

  lemma StaleAfter(w: World, a: Action)
    ensures Next(w, a).stale == if Enabled(w, a) then w.stale + Spoiled(w, a) else w.stale
  {
  }

  /** However many jars, clients and callers there are: while no action makes a token stale, none is taken for stolen. */
  lemma {:induction false} NeverTakenForReuse(jars: nat, places: seq<nat>, actions: seq<Action>)
    requires Housed(jars, places)
    requires forall i :: 0 <= i < |actions| ==> !Spoilt(Start(jars, places), actions, i)
    ensures !Run(Start(jars, places), actions).reused
  {
    var start := Start(jars, places);
    forall i | 0 <= i < |actions|
      ensures !PresentsAt(start, actions, i)
    {
      forall k | 0 <= k < i
        ensures !Spoilt(start, actions[..i], k)
      {
        assert actions[..i][..k] == actions[..k];
        assert !Spoilt(start, actions, k);
      }
      NothingStale(start, actions[..i]);
    }
    TakenForReuseIff(jars, places, actions);
  }

  // ----- pages that do not share a jar -----------------------------------------------------------------------

  /** No answer of a rotation or a logout is lost, and a page's logouts and refreshes do not overlap. */
  predicate Orderly(w: World, a: Action) {
    a.c < |w.clients| ==>
      var cl := w.clients[a.c];
      match a
      case Lose(_) => cl.desk.None? && (cl.back == [] || !cl.back[0].answer.Minted?)
      case LogoutLose(_, answered) => !answered
      case LogoutCall(_) => !cl.flight.Flying?
      case Call(_, _) => cl.outs == [] && cl.gone == []
      case _ => true
  }

  ghost predicate OrderlyRun(w: World, actions: seq<Action>) {
    forall i :: 0 <= i < |actions| ==> Orderly(Run(w, actions[..i]), actions[i])
  }

  /** The page logs out only while it does not refresh, and has given up on no rotation. */
  ghost predicate PageAlone(cl: Client) {
    FlightOk(cl) && cl.lost == [] && (cl.flight.Flying? ==> cl.outs == [] && cl.gone == [])
  }

  /** Each page has its jar. */
  ghost predicate Alone(w: World) {
    && (forall c, d :: 0 <= c < d < |w.clients| ==> w.clients[c].jar != w.clients[d].jar)
    && (forall c :: 0 <= c < |w.clients| ==> PageAlone(w.clients[c]))
  }

  /** The steps of a refresh. */
  predicate Refreshes(a: Action) {
    a.Call? || a.Look? || a.Refuse? || a.Exchange? || a.Mint? || a.Strike? || a.Deliver? || a.Clear? || a.Lose?
  }

  lemma RefreshAlone(w: World, a: Action)
    requires Enabled(w, a) && PageAlone(w.clients[a.c]) && Orderly(w, a) && Refreshes(a)
    ensures PageAlone(Next(w, a).clients[a.c]) && Next(w, a).clients[a.c].jar == w.clients[a.c].jar
  {
    hide R.Looked, R.RevokeUser, R.Revoke, R.Replaced, Spoiled, SetCookie;
  }

  lemma OwnAlone(w: World, a: Action)
    requires Enabled(w, a) && PageAlone(w.clients[a.c]) && Orderly(w, a)
    ensures PageAlone(Next(w, a).clients[a.c]) && Next(w, a).clients[a.c].jar == w.clients[a.c].jar
  {
    if Refreshes(a) {
      RefreshAlone(w, a);
    } else {
      hide R.RevokeUser, R.Issued, R.Revoke, R.Replaced, Spoiled;
    }
  }

  /** One client moves. */
  lemma OnlyOneMoves(w: World, a: Action)
    requires Enabled(w, a)
    ensures |Next(w, a).clients| == |w.clients| && Next(w, a).clients == w.clients[a.c := Next(w, a).clients[a.c]]
  {
    hide R.Looked, R.RevokeUser, R.Issued, R.Revoke, R.Replaced, Spoiled, SetCookie, Ask, Resolve, GiveUp, Received, Answered;
  }

  lemma StaysAlone(w: World, a: Action)
    requires Alone(w) && Orderly(w, a)
    ensures Alone(Next(w, a))
  {
    hide Next, Orderly, PageAlone;
    if Enabled(w, a) {
      OnlyOneMoves(w, a);
      OwnAlone(w, a);
    } else {
      NothingHappens(w, a);
    }
  }

  lemma NothingHappens(w: World, a: Action)
    requires !Enabled(w, a)
    ensures Next(w, a) == w
  {
  }

  lemma OnlyUser(w: World, c: nat, t: string)
    requires WorldOk(w) && Alone(w) && c < |w.clients|
    requires Uses(w.clients[c], t) || (w.clients[c].jar < |w.cookies| && w.cookies[w.clients[c].jar] == Some(t))
    ensures forall d :: 0 <= d < |w.clients| && Uses(w.clients[d], t) ==> d == c
    ensures forall d :: 0 <= d < |w.clients| && (Asks(w.clients[d], t) || Ends(w.clients[d], t)) ==> Uses(w.clients[d], t)
  {
  }

  lemma NothingSpoils(w: World, a: Action)
    requires WorldOk(w) && Alone(w) && Orderly(w, a) && Enabled(w, a)
    ensures Spoiled(w, a) == {}
  {
    var t := Subject(w, a);
    if t.Some? && (a.Exchange? || a.LogoutServe? || a.Call?) {
      OnlyUser(w, a.c, t.value);
    }
    hide WorldOk;
  }

  lemma {:induction false} OrderlySpoilsNothing(jars: nat, places: seq<nat>, actions: seq<Action>)
    requires Housed(jars, places) && (forall c, d :: 0 <= c < d < |places| ==> places[c] != places[d])
    requires OrderlyRun(Start(jars, places), actions)
    ensures WorldOk(Run(Start(jars, places), actions)) && Alone(Run(Start(jars, places), actions))
    ensures Run(Start(jars, places), actions).stale == {}
  {
    var start := Start(jars, places);
    if actions == [] {
      StartOk(jars, places);
    } else {
      var n := |actions| - 1;
      forall i | 0 <= i < n
        ensures Orderly(Run(start, actions[..n][..i]), actions[..n][i])
      {
        assert actions[..n][..i] == actions[..i];
      }
      OrderlySpoilsNothing(jars, places, actions[..n]);
      var w := Run(start, actions[..n]);
      hide WorldOk, Alone, Orderly, Enabled, Next, Spoiled, Presents;
      StaysAlone(w, actions[n]);
      NextOk(w, actions[n]);
      NonePresented(w, actions[n]);
      StaleAfter(w, actions[n]);
      if Enabled(w, actions[n]) {
        NothingSpoils(w, actions[n]);
      }
    }
  }

  lemma NonePresented(w: World, a: Action)
    requires w.stale == {}
    ensures !Presents(w, a)
  {
  }

  /** Pages that do not share a jar, without overlap and lost answers, are never taken for thieves. */
  lemma OrderlyPagesAreSafe(jars: nat, places: seq<nat>, actions: seq<Action>)
    requires Housed(jars, places) && (forall c, d :: 0 <= c < d < |places| ==> places[c] != places[d])
    requires OrderlyRun(Start(jars, places), actions)
    ensures !Run(Start(jars, places), actions).reused
  {
    OrderlySpoilsNothing(jars, places, actions);
    NotReused(Run(Start(jars, places), actions), Clear(0));
  }

  // ----- histories that go wrong -------------------------------------------------------------------------------

  lemma {:induction false} RunAppend(w: World, a: seq<Action>, b: seq<Action>)
    ensures Run(w, a + b) == Run(Run(w, a), b)
    decreases |b|
  {
    hide Next;
    if b == [] {
      assert a + b == a;
    } else {
      var n := |b| - 1;
      assert (a + b)[..|a| + n] == a + b[..n];
      RunAppend(w, a, b[..n]);
    }
  }

  lemma RunTwo(w: World, a: Action, b: Action)
    ensures Run(w, [a, b]) == Next(Next(w, a), b)
  {
    assert [a, b][..1] == [a] && [a][..0] == [];
    assert Run(w, [a]) == Next(Run(w, []), a);
    assert Run(w, [a, b]) == Next(Run(w, [a]), b);
  }

  lemma RunFour(w: World, a: Action, b: Action, c: Action, d: Action)
    ensures Run(w, [a, b, c, d]) == Next(Next(Next(Next(w, a), b), c), d)
  {
    hide Next;
    assert [a, b, c, d] == [a, b] + [c, d];
    RunAppend(w, [a, b], [c, d]);
    RunTwo(w, a, b);
    RunTwo(Run(w, [a, b]), c, d);
  }

  lemma RunEight(w: World, a: Action, b: Action, c: Action, d: Action, e: Action, f: Action, g: Action, h: Action)
    ensures Run(w, [a, b, c, d, e, f, g, h]) == Next(Next(Next(Next(Next(Next(Next(Next(w, a), b), c), d), e), f), g), h)
  {
    hide Next;
    assert [a, b, c, d, e, f, g, h] == [a, b, c, d] + [e, f, g, h];
    RunAppend(w, [a, b, c, d], [e, f, g, h]);
    RunFour(w, a, b, c, d);
    RunFour(Run(w, [a, b, c, d]), e, f, g, h);
  }

  /** A login that goes through. */
  const LOGIN := [LoginServed(0, "u", "A"), LoginDelivered(0)]

  lemma RunLogin(w: World, rest: seq<Action>)
    ensures Run(w, LOGIN + rest) == Run(Next(Next(w, LoginServed(0, "u", "A")), LoginDelivered(0)), rest)
  {
    hide Next;
    RunAppend(w, LOGIN, rest);
    RunTwo(w, LoginServed(0, "u", "A"), LoginDelivered(0));
  }

  /** This client's messages, as far as the histories below depend on them. */
  predicate Looks(cl: Client, flight: Flight, sent: seq<Option<string>>, desk: Option<R.Work>) {
    cl.jar == 0 && cl.flight == flight && cl.sent == sent && cl.desk == desk
  }

  /** Signed in with token "A" in jar 0. */
  ghost predicate SignedIn(w: World, pages: nat) {
    && |w.clients| == pages && w.cookies == [Some("A")] && w.rows == map["A" := R.Row("u", None, 0)] && !w.reused
    && forall c :: 0 <= c < pages ==>
         Looks(w.clients[c], Idle, [], None) && w.clients[c].back == [] && w.clients[c].outs == [] && w.clients[c].gone == []
  }

  lemma SigningIn(places: seq<nat>)
    requires places != [] && forall c :: 0 <= c < |places| ==> places[c] == 0
    ensures SignedIn(Next(Next(Start(1, places), LoginServed(0, "u", "A")), LoginDelivered(0)), |places|)
  {
    hide Spoiled;
    var start := Start(1, places);
    var w := Next(start, LoginServed(0, "u", "A"));
    assert w.rows == map["A" := R.Row("u", None, 0)];
    assert w.clients == start.clients[0 := NewClient(0).(login := Some("A"))] && w.cookies == [None] && !w.reused;
    hide Start, R.Issued;
    var v := Next(w, LoginDelivered(0));
    assert v.cookies == [Some("A")] && v.clients == w.clients[0 := NewClient(0).(access := true)] && v.rows == w.rows && !v.reused;
  }

  /** Page c asks with the cookie. */
  lemma Asking(w: World, c: nat)
    requires c < |w.clients| && |w.cookies| == 1 && Looks(w.clients[c], Idle, [], None)
    ensures var v := Next(w, Call(c, 0));
            && |v.clients| == |w.clients| && Looks(v.clients[c], Flying, [w.cookies[0]], None)
            && v.clients[c].back == w.clients[c].back && v.clients[c].outs == w.clients[c].outs
            && v.cookies == w.cookies && v.rows == w.rows && v.reused == w.reused
            && forall d :: 0 <= d < |w.clients| && d != c ==> v.clients[d] == w.clients[d]
  {
    hide Spoiled;
  }

  /** Its request is looked up. */
  lemma Looking(w: World, c: nat, t: string)
    requires c < |w.clients| && |w.cookies| == 1 && Looks(w.clients[c], Flying, [Some(t)], None) && t in w.rows
    ensures var v := Next(w, Look(c, false));
            && |v.clients| == |w.clients| && v.cookies == w.cookies && v.rows == w.rows
            && v.reused == (w.reused || R.Revoked(w.rows, t))
            && (R.Live(w.rows, t) ==> Looks(v.clients[c], Flying, [], Some(R.Judged(t))) && v.clients[c].back == w.clients[c].back)
            && forall d :: 0 <= d < |w.clients| && d != c ==> v.clients[d] == w.clients[d]
  {
    hide Spoiled;
  }

  /** It is exchanged. */
  lemma Exchanging(w: World, c: nat, t: string, now: nat)
    requires c < |w.clients| && |w.cookies| == 1 && Looks(w.clients[c], Flying, [], Some(R.Judged(t)))
    ensures var v := Next(w, Exchange(c, now));
            && |v.clients| == |w.clients| && v.cookies == w.cookies && v.rows == R.Revoke(w.rows, t, now) && v.reused == w.reused
            && Looks(v.clients[c], Flying, [], Some(R.Minting(t))) && v.clients[c].back == w.clients[c].back
            && forall d :: 0 <= d < |w.clients| && d != c ==> v.clients[d] == w.clients[d]
  {
    hide Spoiled, R.Revoke;
  }

  /** The new token is stored. */
  lemma Storing(w: World, c: nat, t: string, next: string)
    requires c < |w.clients| && |w.cookies| == 1 && Looks(w.clients[c], Flying, [], Some(R.Minting(t))) && t in w.rows && next !in w.rows
    ensures var v := Next(w, Mint(c, next));
            && |v.clients| == |w.clients| && v.cookies == w.cookies && v.rows == R.Replaced(w.rows, t, next) && v.reused == w.reused
            && Looks(v.clients[c], Flying, [], None) && v.clients[c].back != []
            && forall d :: 0 <= d < |w.clients| && d != c ==> v.clients[d] == w.clients[d]
  {
    hide Spoiled, R.Replaced;
  }

  /** The answer is lost and the promise forgotten. */
  lemma Losing(w: World, c: nat)
    requires c < |w.clients| && |w.cookies| == 1 && Looks(w.clients[c], Flying, [], None) && w.clients[c].back != []
    ensures var v := Next(Next(w, Lose(c)), Clear(c));
            && |v.clients| == |w.clients| && v.cookies == w.cookies && v.rows == w.rows && v.reused == w.reused
            && Looks(v.clients[c], Idle, [], None)
  {
    hide Spoiled;
  }

  /** A response that never arrives leaves the old cookie in place; the next refresh presents it. */
  lemma LostResponseIsTakenForReuse(now: nat)
    ensures Run(Start(1, [0]), LOGIN + [Call(0, 0), Look(0, false), Exchange(0, now), Mint(0, "B"),
                                        Lose(0), Clear(0), Call(0, 0), Look(0, false)]).reused
  {
    hide Next, Start, Run, R.Revoke, R.Replaced, Looks;
    var start := Start(1, [0]);
    RunLogin(start, [Call(0, 0), Look(0, false), Exchange(0, now), Mint(0, "B"), Lose(0), Clear(0), Call(0, 0), Look(0, false)]);
    SigningIn([0]);
    var w := Next(Next(start, LoginServed(0, "u", "A")), LoginDelivered(0));
    RunEight(w, Call(0, 0), Look(0, false), Exchange(0, now), Mint(0, "B"), Lose(0), Clear(0), Call(0, 0), Look(0, false));
    Asking(w, 0);
    var w1 := Next(w, Call(0, 0));
    Looking(w1, 0, "A");
    var w2 := Next(w1, Look(0, false));
    Exchanging(w2, 0, "A", now);
    var w3 := Next(w2, Exchange(0, now));
    RevokedThen(w.rows, "A", now, "B");
    Storing(w3, 0, "A", "B");
    var w4 := Next(w3, Mint(0, "B"));
    Losing(w4, 0);
    var w6 := Next(Next(w4, Lose(0)), Clear(0));
    Asking(w6, 0);
    Looking(Next(w6, Call(0, 0)), 0, "A");
  }

  /** What an exchange does to the first token and leaves of the others. */
  lemma RevokedThen(rows: R.Table, t: string, now: nat, next: string)
    requires R.Live(rows, t) && next !in rows
    ensures R.Revoked(R.Revoke(rows, t, now), t) && next !in R.Revoke(rows, t, now)
    ensures R.Revoked(R.Replaced(R.Revoke(rows, t, now), t, next), t) && R.Live(R.Replaced(R.Revoke(rows, t, now), t, next), next)
    ensures forall x :: x in R.Replaced(R.Revoke(rows, t, now), t, next) <==> x in rows || x == next
  {
  }

  /** The logout request goes out and is handled. */
  lemma LoggingOut(w: World, c: nat, now: nat)
    requires c < |w.clients| && |w.cookies| == 1 && w.clients[c].jar == 0 && w.cookies[0] == Some("A") && w.clients[c].outs == []
    ensures var v := Next(Next(w, LogoutCall(c)), LogoutServe(c, now));
            && |v.clients| == |w.clients| && |v.cookies| == 1 && v.rows == R.Revoke(w.rows, "A", now)
            && v.clients[c].flight == w.clients[c].flight && v.clients[c].sent == w.clients[c].sent
            && v.clients[c].desk == w.clients[c].desk && v.clients[c].jar == 0
  {
    hide Spoiled, R.Revoke;
    assert Next(w, LogoutCall(c)).clients[c].outs == [Some("A")];
  }

  /** A logout that reaches the server before a refresh already sent does the same. */
  lemma LogoutDuringRefreshIsTakenForReuse(now: nat)
    ensures Run(Start(1, [0]), LOGIN + [Call(0, 0), LogoutCall(0), LogoutServe(0, now), Look(0, false)]).reused
  {
    hide Next, Start, Run, R.Revoke;
    var start := Start(1, [0]);
    RunLogin(start, [Call(0, 0), LogoutCall(0), LogoutServe(0, now), Look(0, false)]);
    SigningIn([0]);
    var w := Next(Next(start, LoginServed(0, "u", "A")), LoginDelivered(0));
    RunFour(w, Call(0, 0), LogoutCall(0), LogoutServe(0, now), Look(0, false));
    Asking(w, 0);
    LoggingOut(Next(w, Call(0, 0)), 0, now);
    RevokedThen(w.rows, "A", now, "B");
    Looking(Next(Next(Next(w, Call(0, 0)), LogoutCall(0)), LogoutServe(0, now)), 0, "A");
  }

  /** Two pages of one browser each have their own promise; refreshing at once, one presents what the other exchanged. */
  lemma TwoPagesAreTakenForReuse(now: nat)
    ensures Run(Start(1, [0, 0]), LOGIN + [Call(0, 0), Call(1, 0), Look(0, false), Exchange(0, now)] + [Look(1, false)]).reused
  {
    hide Next, Start, Run, R.Revoke;
    var start := Start(1, [0, 0]);
    var first, last := [Call(0, 0), Call(1, 0), Look(0, false), Exchange(0, now)], [Look(1, false)];
    RunAppend(start, LOGIN + first, last);
    RunLogin(start, first);
    SigningIn([0, 0]);
    var w := Next(Next(start, LoginServed(0, "u", "A")), LoginDelivered(0));
    RunFour(w, Call(0, 0), Call(1, 0), Look(0, false), Exchange(0, now));
    Asking(w, 0);
    var w1 := Next(w, Call(0, 0));
    Asking(w1, 1);
    var w2 := Next(w1, Call(1, 0));
    Looking(w2, 0, "A");
    var w3 := Next(w2, Look(0, false));
    Exchanging(w3, 0, "A", now);
    RevokedThen(w.rows, "A", now, "B");
    Looking(Next(w3, Exchange(0, now)), 1, "A");
    RunOne(Run(start, LOGIN + first), Look(1, false));
  }

  lemma RunOne(w: World, a: Action)
    ensures Run(w, [a]) == Next(w, a)
  {
    hide Next;
    assert [a][..0] == [];
  }

  /** When both look their token up before either exchanges it, nothing is noticed and the login has two live tokens. */
  lemma TwoPagesBothRotate(now: nat)
    ensures var w := Run(Start(1, [0, 0]), LOGIN + [Call(0, 0), Call(1, 0), Look(0, false), Look(1, false),
                                                    Exchange(0, now), Exchange(1, now), Mint(0, "B"), Mint(1, "C")]);
            !w.reused && R.Live(w.rows, "B") && R.Live(w.rows, "C")
  {
    hide Next, Start, Run, R.Revoke, R.Replaced;
    var start := Start(1, [0, 0]);
    RunLogin(start, [Call(0, 0), Call(1, 0), Look(0, false), Look(1, false), Exchange(0, now), Exchange(1, now), Mint(0, "B"), Mint(1, "C")]);
    SigningIn([0, 0]);
    var w := Next(Next(start, LoginServed(0, "u", "A")), LoginDelivered(0));
    RunEight(w, Call(0, 0), Call(1, 0), Look(0, false), Look(1, false), Exchange(0, now), Exchange(1, now), Mint(0, "B"), Mint(1, "C"));
    Asking(w, 0);
    var w1 := Next(w, Call(0, 0));
    Asking(w1, 1);
    var w2 := Next(w1, Call(1, 0));
    Looking(w2, 0, "A");
    var w3 := Next(w2, Look(0, false));
    Looking(w3, 1, "A");
    var w4 := Next(w3, Look(1, false));
    Exchanging(w4, 0, "A", now);
    var w5 := Next(w4, Exchange(0, now));
    RevokedThen(w.rows, "A", now, "B");
    Exchanging(w5, 1, "A", now);
    var w6 := Next(w5, Exchange(1, now));
    RevokedAgain(w5.rows, "A", now);
    RevokedThen(w.rows, "A", now, "C");
    Storing(w6, 0, "A", "B");
    Storing(Next(w6, Mint(0, "B")), 1, "A", "C");
    StoredBeside(w6.rows, "A", "B", "C");
  }

  lemma RevokedAgain(rows: R.Table, t: string, now: nat)
    requires R.Revoked(rows, t)
    ensures R.Revoke(rows, t, now) == rows
  {
  }

  lemma StoredBeside(rows: R.Table, t: string, x: string, y: string)
    requires t in rows && x !in rows && y !in rows && x != y
    ensures var after := R.Replaced(R.Replaced(rows, t, x), t, y);
            R.Live(after, x) && R.Live(after, y)
    ensures y !in R.Replaced(rows, t, x) && t in R.Replaced(rows, t, x)
  {
  }

  // ----- single flight, in every run whatever ------------------------------------------------

  ghost predicate SingleFlight(w: World) {
    forall c :: 0 <= c < |w.clients| ==> FlightOk(w.clients[c])
  }

  lemma OwnFlight(w: World, a: Action)
    requires Enabled(w, a) && FlightOk(w.clients[a.c])
    ensures FlightOk(Next(w, a).clients[a.c])
  {
    hide R.Looked, R.RevokeUser, R.Issued, R.Revoke, R.Replaced, Spoiled, SetCookie;
  }

  lemma NextSingleFlight(w: World, a: Action)
    requires SingleFlight(w)
    ensures SingleFlight(Next(w, a))
  {
    hide Next, FlightOk;
    if Enabled(w, a) {
      OnlyOneMoves(w, a);
      OwnFlight(w, a);
    } else {
      NothingHappens(w, a);
    }
  }

  lemma {:induction false} RunSingleFlight(w: World, actions: seq<Action>)
    requires SingleFlight(w)
    ensures SingleFlight(Run(w, actions))
    decreases |actions|
  {
    hide SingleFlight, Next;
    if actions != [] {
      RunSingleFlight(w, actions[..|actions| - 1]);
      NextSingleFlight(Run(w, actions[..|actions| - 1]), actions[|actions| - 1]);
    }
  }

  /**
   * In every run, lost messages, logouts and thefts included, a page has at most one refresh it waits for under way,
   * as a request, at the server or as a response, exactly when a promise is pending, and callers wait only then.
   */
  lemma OneRefreshInFlight(jars: nat, places: seq<nat>, actions: seq<Action>, c: nat)
    requires c < |Run(Start(jars, places), actions).clients|
    ensures var cl := Run(Start(jars, places), actions).clients[c];
            && |cl.sent| + (if cl.desk.Some? then 1 else 0) + |cl.back| <= 1
            && (cl.flight.Flying? <==> |cl.sent| + (if cl.desk.Some? then 1 else 0) + |cl.back| == 1)
            && (cl.waiting != {} ==> cl.flight.Flying?)
  {
    RunSingleFlight(Start(jars, places), actions);
  }

  /** After each of these actions the page's promise is still pending. */
  ghost predicate StaysFlying(w: World, actions: seq<Action>, c: nat) {
    forall i :: 0 <= i <= |actions| ==> c < |Run(w, actions[..i]).clients| && Run(w, actions[..i]).clients[c].flight.Flying?
  }

  lemma {:induction false} NobodyStopsWaiting(w: World, actions: seq<Action>, c: nat)
    requires SingleFlight(w) && StaysFlying(w, actions, c)
    ensures actions[..|actions|] == actions && SingleFlight(Run(w, actions))
    ensures c < |w.clients| && c < |Run(w, actions).clients| && w.clients[c].waiting <= Run(w, actions).clients[c].waiting
  {
    assert actions[..|actions|] == actions && actions[..0] == [];
    RunSingleFlight(w, actions);
    assert Run(w, actions[..0]) == w;
    if actions != [] {
      var init := actions[..|actions| - 1];
      forall i | 0 <= i <= |init|
        ensures init[..i] == actions[..i]
      {
      }
      NobodyStopsWaiting(w, init, c);
      assert Run(w, actions[..|actions|]).clients[c].flight.Flying?;
      StillWaiting(Run(w, init), actions[|actions| - 1], c);
    }
  }

  lemma StillWaiting(w: World, a: Action, c: nat)
    requires SingleFlight(w) && c < |w.clients| && w.clients[c].flight.Flying?
    ensures |Next(w, a).clients| == |w.clients|
    ensures Next(w, a).clients[c].flight.Flying? ==> w.clients[c].waiting <= Next(w, a).clients[c].waiting
    ensures !Next(w, a).clients[c].flight.Flying? ==>
              && Next(w, a).clients[c].flight.Settled?
              && forall k :: k in w.clients[c].waiting ==>
                   k in Next(w, a).clients[c].got && Next(w, a).clients[c].got[k] == Next(w, a).clients[c].flight.ok
  {
    if Enabled(w, a) {
      OnlyOneMoves(w, a);
      if a.c == c {
        OwnWaiting(w, a);
      }
    }
    hide Enabled, Next;
    if !Enabled(w, a) {
      NothingHappens(w, a);
    }
  }

  lemma OwnWaiting(w: World, a: Action)
    requires Enabled(w, a) && FlightOk(w.clients[a.c]) && w.clients[a.c].flight.Flying?
    ensures a.c < |Next(w, a).clients|
    ensures var cl, after := w.clients[a.c], Next(w, a).clients[a.c];
            if after.flight.Flying? then cl.waiting <= after.waiting
            else after.flight.Settled? && forall k :: k in cl.waiting ==> k in after.got && after.got[k] == after.flight.ok
  {
    hide R.Looked, R.RevokeUser, R.Issued, R.Revoke, R.Replaced, Spoiled, SetCookie;
  }

  /** When the promise settles, after whatever actions, every caller that was awaiting it is told one and the same answer. */
  lemma WaitersShareTheAnswer(jars: nat, places: seq<nat>, before: seq<Action>, during: seq<Action>, last: Action, c: nat)
    requires StaysFlying(Run(Start(jars, places), before), during, c)
    requires var after := Run(Start(jars, places), before + during + [last]);
             c < |after.clients| && !after.clients[c].flight.Flying?
    ensures var asked, after := Run(Start(jars, places), before), Run(Start(jars, places), before + during + [last]);
            && c < |asked.clients| && after.clients[c].flight.Settled?
            && forall k :: k in asked.clients[c].waiting ==> k in after.clients[c].got && after.clients[c].got[k] == after.clients[c].flight.ok
  {
    var start := Start(jars, places);
    var w := Run(start, before);
    RunSingleFlight(start, before);
    NobodyStopsWaiting(w, during, c);
    RunAppend(start, before, during);
    assert (before + during + [last])[..|before + during|] == before + during;
    assert Run(w, during[..|during|]).clients[c].flight.Flying?;
    hide Next;
    StillWaiting(Run(w, during), last, c);
  }
}
