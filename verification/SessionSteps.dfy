/** What each message does to the page that sent it, to its cookie jar and to the server (model: SessionProtocol.dfy). */
module SessionSteps {
  import opened Common
  import opened SessionProtocol
  import R = RefreshTokens

  /** A jar outside the page's own keeps its cookie. */
  predicate OtherJars(w: World, after: World, jar: nat) {
    |after.cookies| == |w.cookies| && forall j :: 0 <= j < |w.cookies| && j != jar ==> after.cookies[j] == w.cookies[j]
  }

  predicate OtherPages(w: World, after: World, c: nat) {
    |after.clients| == |w.clients| && forall d :: 0 <= d < |w.clients| && d != c ==> after.clients[d] == w.clients[d]
  }

  /** One page acts: the others and their jars are left alone. */
  lemma OnlyOnePage(w: World, a: Action)
    requires Enabled(w, a)
    ensures OtherPages(w, Next(w, a), a.c) && OtherJars(w, Next(w, a), w.clients[a.c].jar)
    ensures Next(w, a).clients[a.c].jar == w.clients[a.c].jar
  {
    hide Spoiled, R.Revoke, R.RevokeUser, R.Looked;
  }

  /** A refresh is asked of the server, with the jar's cookie, if and only if none is pending; a caller joins or is told what the last one said. */
  lemma CallAsks(w: World, c: nat, caller: nat)
    requires Enabled(w, Call(c, caller))
    ensures var cl, after := w.clients[c], Next(w, Call(c, caller)).clients[c];
            && (cl.flight.Idle? ==>
                  after.sent == cl.sent + [w.cookies[cl.jar]] && after.flight.Flying? && after.waiting == {caller} && after.got == cl.got)
            && (cl.flight.Flying? ==>
                  after.sent == cl.sent && after.flight.Flying? && after.waiting == cl.waiting + {caller} && after.got == cl.got)
            && (cl.flight.Settled? ==>
                  && after.sent == cl.sent && after.flight == cl.flight && after.waiting == cl.waiting
                  && caller in after.got && after.got[caller] == cl.flight.ok
                  && forall k :: k != caller ==> (k in after.got <==> k in cl.got) && (k in cl.got ==> after.got[k] == cl.got[k]))
  {
  }

  /** A request with a token in order goes on the desk, a revoked one to be struck; any other is refused, and says why. */
  lemma LookAnswers(w: World, c: nat, expired: bool)
    requires Enabled(w, Look(c, expired))
    ensures var cl, after := w.clients[c], Next(w, Look(c, expired)).clients[c];
            var request := cl.sent[0];
            var known := request.Some? && request.value in w.rows;
            && after.sent == cl.sent[1..] && Next(w, Look(c, expired)).rows == w.rows
            && (known && w.rows[request.value].revokedAt.Some? ==>
                  after.desk == Some(R.Striking(w.rows[request.value].user)) && after.back == cl.back && Next(w, Look(c, expired)).reused)
            && (known && w.rows[request.value].revokedAt.None? && !expired ==>
                  after.desk == Some(R.Judged(request.value)) && after.back == cl.back)
            && (!known || (w.rows[request.value].revokedAt.None? && expired) ==>
                  after.desk == cl.desk && after.back == cl.back + [Reply(request, if request.Some? then Denied else NoCookie)])
            && (!(known && w.rows[request.value].revokedAt.Some?) ==> Next(w, Look(c, expired)).reused == w.reused)
  {
  }

  /** The answer arrives: a new token becomes the cookie, any other answer leaves it; every caller waiting is told which. */
  lemma DeliverTells(w: World, c: nat)
    requires Enabled(w, Deliver(c))
    ensures var cl, after := w.clients[c], Next(w, Deliver(c));
            var answer, ok := cl.back[0].answer, cl.back[0].answer.Minted?;
            && (ok ==> after.cookies[cl.jar] == Some(answer.token))
            && (!ok ==> after.cookies[cl.jar] == w.cookies[cl.jar])
            && after.clients[c].access == ok && after.clients[c].flight == Settled(ok)
            && after.clients[c].waiting == {} && after.clients[c].back == cl.back[1..]
            && (forall k :: k in cl.waiting ==> k in after.clients[c].got && after.clients[c].got[k] == ok)
            && (forall k :: k !in cl.waiting ==>
                  (k in after.clients[c].got <==> k in cl.got) && (k in cl.got ==> after.clients[c].got[k] == cl.got[k]))
            && after.rows == w.rows
  {
  }

  /** A request that fails tells every caller no, and what the server was doing for it goes on. */
  lemma LoseTells(w: World, c: nat)
    requires Enabled(w, Lose(c))
    ensures var cl, after := w.clients[c], Next(w, Lose(c));
            && after.cookies == w.cookies && after.rows == w.rows
            && !after.clients[c].access && after.clients[c].flight == Settled(false) && after.clients[c].waiting == {}
            && (forall k :: k in cl.waiting ==> k in after.clients[c].got && !after.clients[c].got[k])
            && after.clients[c].sent == [] && after.clients[c].back == [] && after.clients[c].desk.None?
            && after.clients[c].lost == cl.lost + (if cl.desk.Some? then [cl.desk.value] else [])
  {
    hide Spoiled;
  }

  /** What the server stores and answers at the end of a rotation. */
  lemma MintAnswers(w: World, c: nat, next: string)
    requires Enabled(w, Mint(c, next))
    ensures var cl, after := w.clients[c], Next(w, Mint(c, next));
            var t := cl.desk.value.token;
            && after.rows == w.rows[next := R.Row(w.rows[t].user, None, w.rows[t].chain)]
            && after.clients[c].back == cl.back + [Reply(Some(t), Minted(next))] && after.clients[c].desk.None?
            && after.cookies == w.cookies
  {
  }

  /** A login gives the page a cookie and access when its answer arrives, a logout takes them away when its answer does. */
  lemma LogInAndOut(w: World, c: nat)
    requires c < |w.clients| && w.clients[c].jar < |w.cookies|
    ensures var cl := w.clients[c];
            && (cl.login.Some? ==>
                  var after := Next(w, LoginDelivered(c));
                  after.cookies[cl.jar] == cl.login && after.clients[c].access && after.clients[c].login.None?)
            && (var after := Next(w, LogoutCall(c));
                after.clients[c].outs == cl.outs + [w.cookies[cl.jar]] && after.cookies == w.cookies)
            && (cl.gone != [] ==>
                  var after := Next(w, LogoutDeliver(c));
                  after.cookies[cl.jar].None? && !after.clients[c].access && after.clients[c].gone == cl.gone[1..])
  {
  }

  /** The server revokes the token a logout carries, if there is one and it is not revoked yet, and no other. */
  lemma LogoutRevokes(w: World, c: nat, now: nat)
    requires Enabled(w, LogoutServe(c, now))
    ensures var cl, after := w.clients[c], Next(w, LogoutServe(c, now));
            && (forall t :: t in after.rows <==> t in w.rows)
            && (forall t :: t in w.rows ==>
                  after.rows[t] == if cl.outs[0] == Some(t) && w.rows[t].revokedAt.None?
                                   then w.rows[t].(revokedAt := Some(now)) else w.rows[t])
            && after.clients[c].outs == cl.outs[1..] && after.clients[c].gone == cl.gone + [cl.outs[0]]
            && after.cookies == w.cookies
  {
    hide Spoiled;
  }
}
