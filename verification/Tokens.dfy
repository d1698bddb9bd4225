/** The token service: one table, changed in place. */
module Tokens {
  import opened Model

  class TokenService {
    var tokens: map<Token, TokenEntry>

    constructor ()
      ensures tokens == map[]
    {
      tokens := map[];
    }

    /** `drawn` is what the random source gives, `None` if it fails; `now` is the clock. */
    method Issue(jobId: JobId, ttl: nat, drawn: Option<Token>, now: Time) returns (issued: Option<Token>)
      modifies this
      ensures issued == drawn
      ensures tokens == if drawn.None? then old(tokens)
                        else old(tokens)[drawn.value := TokenEntry(jobId, now + ttl)]
    {
      if drawn.None? {
        return None;
      }
      tokens := tokens[drawn.value := TokenEntry(jobId, now + ttl)];
      return drawn;
    }

    method Check(jobId: JobId, tok: Token, now: Time) returns (verdict: TokenVerdict)
      ensures verdict == Validate(tokens, jobId, tok, now)
      ensures verdict == Valid <==> tok in tokens && tokens[tok].jobId == jobId && now <= tokens[tok].expiresAt
    {
      if tok !in tokens {
        return Invalid;
      }
      var e := tokens[tok];
      if e.jobId != jobId {
        return Invalid;
      }
      if now > e.expiresAt {
        return Lapsed;
      }
      return Valid;
    }

    /** Deletes while it ranges over the table. */
    method Revoke(jobId: JobId)
      modifies this
      ensures tokens == Revoked(old(tokens), jobId)
    {
      var todo := tokens.Keys;
      while todo != {}
        invariant todo <= tokens.Keys <= old(tokens).Keys
        invariant forall tok :: tok in tokens ==> tokens[tok] == old(tokens)[tok]
        invariant forall tok :: tok in old(tokens) && tok !in todo ==>
                    (tok in tokens <==> old(tokens)[tok].jobId != jobId)
        decreases todo
      {
        var tok :| tok in todo;
        todo := todo - {tok};
        if tokens[tok].jobId == jobId {
          tokens := tokens - {tok};
        }
      }
    }
  }

  /** The life of a token: valid for its own job only, up to and including its expiry; then
      lapsed; invalid for every job from the moment its job is revoked. */
  lemma {:induction false} TokenLife(before: map<Token, TokenEntry>, tok: Token, jobId: JobId, ttl: nat,
      issuedAt: Time, other: JobId, now: Time)
    ensures var table := before[tok := TokenEntry(jobId, issuedAt + ttl)];
            && Validate(table, other, tok, now) ==
               (if other != jobId then Invalid else if now <= issuedAt + ttl then Valid else Lapsed)
            && Validate(Revoked(table, jobId), other, tok, now) == Invalid
            && (other != jobId ==> Validate(Revoked(table, other), jobId, tok, now) == Validate(table, jobId, tok, now))
  {
  }
}
