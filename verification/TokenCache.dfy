/** The bearer-token cache of a Universal Auth client. Times are nanoseconds. */
module TokenCache {
  import opened Basics

  const SECOND: int := 1_000_000_000

  /** What the login endpoint answers: a token with a lifetime, or nothing usable (a failed
      exchange, a blank token or a token type other than Bearer). */
  datatype Login = Token(token: string, lifetime: int) | Refused

  /** One call: made at `asked`; when an exchange is needed it answers with `login`, and the
      token is stored at `stored`. */
  datatype Ask = Ask(asked: int, login: Login, stored: int)

  datatype Answer = Cached(token: string) | Exchanged(token: string) | Error

  datatype Cache = Cache(token: string, expiresAt: int)

  const EMPTY := Cache("", 0)

  /** How long before the server-side expiry a token stops being served. */
  function Skew(lifetime: int): int {
    if lifetime > 30 * SECOND then 30 * SECOND
    else if lifetime > 0 then lifetime / 2
    else 0
  }

  function Step(c: Cache, q: Ask): (Cache, Answer) {
    if c.token != "" && q.asked < c.expiresAt then (c, Cached(c.token))
    else match q.login
      case Refused => (c, Error)
      case Token(token, lifetime) => (Cache(token, q.stored + lifetime - Skew(lifetime)), Exchanged(token))
  }

  function Run(qs: seq<Ask>): Cache {
    if qs == [] then EMPTY else Step(Run(qs[..|qs| - 1]), qs[|qs| - 1]).0
  }

  function AnswerAt(qs: seq<Ask>, i: nat): Answer
    requires i < |qs|
  {
    Step(Run(qs[..i]), qs[i]).1
  }

  /** A clock that does not run backwards, and a server that never sends a blank token. */
  predicate Clocked(qs: seq<Ask>) {
    && (forall i :: 0 <= i < |qs| ==> qs[i].asked <= qs[i].stored && (qs[i].login.Token? ==> qs[i].login.token != ""))
    && (forall i, j :: 0 <= i < j < |qs| ==> qs[i].stored <= qs[j].asked)
  }

  /** Go's integer division truncates toward zero. */
  function Halved(lifetime: int): int {
    if lifetime >= 0 then lifetime / 2 else -(-lifetime / 2)
  }

  class Client {
    var token: string
    var expiresAt: int

    function Contents(): Cache
      reads this
    {
      Cache(token, expiresAt)
    }

    constructor ()
      ensures Contents() == EMPTY
    {
      token, expiresAt := "", 0;
    }

    /** `bearerToken`. */
    method BearerToken(q: Ask) returns (answer: Answer)
      modifies this
      ensures (Contents(), answer) == Step(old(Contents()), q)
    {
      if token != "" && q.asked < expiresAt {
        return Cached(token);
      }
      if q.login.Refused? {
        return Error;
      }
      token := q.login.token;
      var validFor := q.login.lifetime;
      var refreshSkew := 30 * SECOND;
      if validFor <= refreshSkew {
        refreshSkew := Halved(validFor);
      }
      if refreshSkew < 0 {
        refreshSkew := 0;
      }
      expiresAt := q.stored + (validFor - refreshSkew);
      answer := Exchanged(token);
    }
  }

  /** The exchange whose token the cache holds: the last one that succeeded. */
  function LastExchange(qs: seq<Ask>): (k: Option<nat>)
    ensures k.Some? ==> k.value < |qs| && AnswerAt(qs, k.value).Exchanged?
    ensures forall j :: (if k.Some? then k.value + 1 else 0) <= j < |qs| ==> !AnswerAt(qs, j).Exchanged?
  {
    if qs == [] then None
    else
      var n := |qs| - 1;
      var rest := LastExchange(qs[..n]);
      assert forall j :: 0 <= j < n ==> AnswerAt(qs[..n], j) == AnswerAt(qs, j) by {
        forall j | 0 <= j < n ensures AnswerAt(qs[..n], j) == AnswerAt(qs, j) {
          assert qs[..n][..j] == qs[..j];
        }
      }
      if AnswerAt(qs, n).Exchanged? then Some(n) else rest
  }

  function End(q: Ask): int
    requires q.login.Token?
  {
    q.stored + q.login.lifetime - Skew(q.login.lifetime)
  }

  /** The cache is always the last successful exchange, and nothing else. */
  lemma {:induction false} CacheIsLastExchange(qs: seq<Ask>)
    ensures match LastExchange(qs)
      case None => Run(qs) == EMPTY
      case Some(k) => qs[k].login.Token? && Run(qs) == Cache(qs[k].login.token, End(qs[k]))
  {
    if qs != [] {
      var n := |qs| - 1;
      CacheIsLastExchange(qs[..n]);
      assert forall j :: 0 <= j < n ==> qs[..n][..j] == qs[..j];
    }
  }

  /** A token served from the cache comes from the last successful exchange, strictly before
      its lifetime less the skew has run out; a lifetime of zero or less is never served. */
  lemma {:induction false} ServedOnlyInItsWindow(qs: seq<Ask>, i: nat)
    requires Clocked(qs) && i < |qs| && AnswerAt(qs, i).Cached?
    ensures LastExchange(qs[..i]).Some?
    ensures var q := qs[LastExchange(qs[..i]).value];
      q.login.Token? && AnswerAt(qs, i) == Cached(q.login.token) && qs[i].asked < End(q) && q.login.lifetime > 0
  {
    CacheIsLastExchange(qs[..i]);
    var k := LastExchange(qs[..i]).value;
    assert qs[k].stored <= qs[i].asked;
  }

  /** So a served token is still valid at the server whenever the login reply took no longer
      than the skew to arrive. */
  lemma {:induction false} ServedTokenIsValid(qs: seq<Ask>, i: nat, issued: int)
    requires Clocked(qs) && i < |qs| && AnswerAt(qs, i).Cached?
    requires LastExchange(qs[..i]).Some? ==>
      var q := qs[LastExchange(qs[..i]).value];
      q.login.Token? ==> q.stored - issued <= Skew(q.login.lifetime)
    ensures LastExchange(qs[..i]).Some? && qs[LastExchange(qs[..i]).value].login.Token?
    ensures qs[i].asked < issued + qs[LastExchange(qs[..i]).value].login.lifetime
  {
    ServedOnlyInItsWindow(qs, i);
  }

  /** A successful exchange is followed by no other until its window ends: every later call
      asked before then is answered from the cache with the same token. */
  lemma {:induction false} NoExchangeInsideTheWindow(qs: seq<Ask>, k: nat, i: nat)
    requires Clocked(qs) && k < i < |qs| && AnswerAt(qs, k).Exchanged?
    requires qs[k].login.Token? ==> qs[i].asked < End(qs[k])
    ensures qs[k].login.Token? && AnswerAt(qs, i) == Cached(qs[k].login.token)
    ensures Run(qs[..i]) == Cache(qs[k].login.token, End(qs[k]))
  {
    assert qs[..i][..i - 1] == qs[..i - 1];
    if i > k + 1 {
      NoExchangeInsideTheWindow(qs, k, i - 1);
    }
  }
}
