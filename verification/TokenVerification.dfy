/**
 The guarded verification decision: how old the retained key material is, which of its
 candidate keys apply to a token, and how a decision becomes an authentication outcome.
 Signature arithmetic and claim parsing are the parameters of `Primitives`.
 */
module TokenVerification {
  import opened Wrappers

  /** `Duration::MAX`, in nanoseconds. */
  const MAX_DURATION: nat := 0xFFFF_FFFF_FFFF_FFFF * 1_000_000_000 + 999_999_999

  datatype Policy = Policy(freshness: nat, staleIfError: nat)

  /** A compact token whose header was already decoded; `prohibited` means `crit` or `b64`. */
  datatype Token = Token(algorithm: string, kid: Option<string>, prohibited: bool, body: string)

  datatype Candidate = Candidate(kid: Option<string>, algorithm: string, key: nat)

  datatype ClaimVerdict = Accepted(client: string) | OutsideScope | NoWallClock | Invalid

  /** The authentication claims of a token, once their shapes are in order; times are in seconds. */
  datatype Claims = Claims(client: string, exp: real, iat: real, nbf: Option<real>)

  datatype ScopeVerdict = MalformedScope | NotAllowed | Allowed

  /**
   `signs`: the key verifies the signature. `shapes`: the authentication claims, if their shapes are in order.
   `scope`: what scope parsing and target selection say. `skew`: the tolerated clock difference.
   */
  datatype Primitives = Primitives(
    signs: (Token, Candidate) -> bool, shapes: Token -> Option<Claims>, scope: Token -> ScopeVerdict, skew: real)

  datatype Verification =
    | Valid(client: string) | Rejected | Forbidden | VerifierUnavailable | NoCandidate | SignatureInvalid

  datatype Classification = Fresh | Stale | ColdOrExpired

  datatype CacheVerification =
    | FreshDecision(verification: Verification)
    | StaleDecision(verification: Verification)
    | NothingUsable
    | Interrupted

  datatype AuthenticationError = ErrRejected | ErrForbidden | ErrVerifierUnavailable | ErrCancelled

  type Authentication = Result<string, AuthenticationError>

  /** The age of material acquired at `acquired`, absent when the clock reads earlier than that. */
  function Age(acquired: nat, now: nat): Option<nat> {
    if acquired <= now then Some(now - acquired) else None
  }

  predicate WithinStale(age: nat, policy: Policy) {
    && policy.freshness + policy.staleIfError <= MAX_DURATION
    && policy.freshness < age <= policy.freshness + policy.staleIfError
  }

  function ClassifyAge(age: Option<nat>, policy: Policy): Classification {
    if age.Some? && age.value <= policy.freshness then Fresh
    else if age.Some? && WithinStale(age.value, policy) then Stale
    else ColdOrExpired
  }

  /** The candidate applies to the token: same algorithm, and the same key id when the token names one. */
  predicate Selects(candidate: Candidate, token: Token, algorithm: string) {
    && !token.prohibited
    && candidate.algorithm == algorithm
    && token.algorithm == algorithm
    && (token.kid.Some? ==> candidate.kid == token.kid)
  }

  predicate Verifies(lib: Primitives, candidate: Candidate, token: Token, algorithm: string) {
    Selects(candidate, token, algorithm) && lib.signs(token, candidate)
  }

  predicate InForce(claims: Claims, now: real, skew: real) {
    now < claims.exp && claims.iat <= now + skew && (claims.nbf.Some? ==> claims.nbf.value <= now + skew)
  }

  /** The verdict on a token's claims at a wall-clock reading, if there is one. */
  function ClaimsVerdict(lib: Primitives, token: Token, wall: Option<real>): ClaimVerdict {
    match lib.shapes(token)
    case None => Invalid
    case Some(claims) =>
      if wall.None? then NoWallClock
      else if !InForce(claims, wall.value, lib.skew) then Invalid
      else
        match lib.scope(token)
        case MalformedScope => Invalid
        case NotAllowed => OutsideScope
        case Allowed => Accepted(claims.client)
  }

  /**
   Claim validation with its four context checks, the first of which is check number `first`: nothing is decided once
   a check that was made answered no.
   */
  method ValidateClaims(lib: Primitives, token: Token, wall: Option<real>, alive: nat -> bool, first: nat)
    returns (verdict: Option<ClaimVerdict>, next: nat)
    ensures first < next <= first + 4
    ensures verdict.Some? ==>
              verdict.value == ClaimsVerdict(lib, token, wall) && forall n :: first <= n < next ==> alive(n)
    ensures verdict.None? ==> !alive(next - 1) && forall n :: first <= n < next - 1 ==> alive(n)
  {
    next := first + 1;
    if !alive(next - 1) {
      return None, next;
    }
    var claims := lib.shapes(token);
    if claims.None? {
      return Some(Invalid), next;
    }
    next := next + 1;
    if !alive(next - 1) {
      return None, next;
    }
    if wall.None? {
      return Some(NoWallClock), next;
    }
    if !InForce(claims.value, wall.value, lib.skew) {
      return Some(Invalid), next;
    }
    next := next + 1;
    if !alive(next - 1) {
      return None, next;
    }
    var scope := lib.scope(token);
    if !scope.Allowed? {
      return Some(if scope.NotAllowed? then OutsideScope else Invalid), next;
    }
    next := next + 1;
    if !alive(next - 1) {
      return None, next;
    }
    return Some(Accepted(claims.value.client)), next;
  }

  function OfClaims(verdict: ClaimVerdict): Verification {
    match verdict
    case Accepted(client) => Valid(client)
    case OutsideScope => Forbidden
    case NoWallClock => VerifierUnavailable
    case Invalid => Rejected
  }

  /** What a set of candidate keys says about a token, whatever order the keys are tried in. */
  ghost function Judgement(lib: Primitives, candidates: seq<Candidate>, token: Token,
                           algorithm: string, wall: Option<real>): Verification
  {
    if exists c :: c in candidates && Verifies(lib, c, token, algorithm) then
      OfClaims(ClaimsVerdict(lib, token, wall))
    else if token.prohibited && candidates != [] then
      Rejected
    else if exists c :: c in candidates && Selects(c, token, algorithm) then
      SignatureInvalid
    else
      NoCandidate
  }

  /**
   The candidate loop of the guarded decision. `alive(n)` is the answer of the n-th check of the
   request context; `None` is returned exactly when some check made by the loop answered no.
   */
  method JudgeCandidates(lib: Primitives, candidates: seq<Candidate>, token: Token,
                         algorithm: string, wall: Option<real>, alive: nat -> bool)
    returns (verdict: Option<Verification>, checks: nat)
    ensures verdict.Some? ==> verdict.value == Judgement(lib, candidates, token, algorithm, wall)
    ensures verdict.Some? ==> forall n :: 0 <= n < checks ==> alive(n)
    ensures verdict.None? ==> 0 < checks && !alive(checks - 1) && forall n :: 0 <= n < checks - 1 ==> alive(n)
    ensures checks <= 2 * |candidates| + 4
  {
    checks := 0;
    var selectedAny, prohibited := false, false;
    var i := 0;
    while i < |candidates|
      invariant 0 <= i <= |candidates| && checks == 2 * i
      invariant forall n :: 0 <= n < checks ==> alive(n)
      invariant forall j :: 0 <= j < i ==> !Verifies(lib, candidates[j], token, algorithm)
      invariant selectedAny ==> exists j :: 0 <= j < i && Selects(candidates[j], token, algorithm)
      invariant !selectedAny ==> forall j :: 0 <= j < i ==> !Selects(candidates[j], token, algorithm)
      invariant prohibited <==> (token.prohibited && 0 < i)
    {
      var candidate := candidates[i];
      checks := checks + 1;
      if !alive(checks - 1) {
        return None, checks;
      }
      var selected := false;
      if token.prohibited {
        prohibited := true;
      } else if candidate.algorithm == algorithm && token.algorithm == algorithm
                && (token.kid.None? || candidate.kid == token.kid) {
        selected := true;
      }
      assert selected == Selects(candidate, token, algorithm);
      selectedAny := selectedAny || selected;
      var verified := selected && lib.signs(token, candidate);
      checks := checks + 1;
      if !alive(checks - 1) {
        return None, checks;
      }
      if verified {
        assert Verifies(lib, candidate, token, algorithm);
        var judged;
        judged, checks := ValidateClaims(lib, token, wall, alive, checks);
        return if judged.None? then None else Some(OfClaims(judged.value)), checks;
      }
      i := i + 1;
    }
    verdict := Some(if prohibited then Rejected else if selectedAny then SignatureInvalid else NoCandidate);
  }

  function VerificationResult(verification: Verification): Authentication {
    match verification
    case Valid(client) => Ok(client)
    case Forbidden => Err(ErrForbidden)
    case VerifierUnavailable => Err(ErrVerifierUnavailable)
    case Rejected | NoCandidate | SignatureInvalid => Err(ErrRejected)
  }

  /** The outcome after a successful refresh. */
  function RefreshedResult(decision: CacheVerification): Authentication {
    match decision
    case FreshDecision(v) => VerificationResult(v)
    case StaleDecision(Valid(_)) => Err(ErrVerifierUnavailable)
    case StaleDecision(Forbidden) => Err(ErrVerifierUnavailable)
    case StaleDecision(v) => VerificationResult(v)
    case NothingUsable => Err(ErrVerifierUnavailable)
    case Interrupted => Err(ErrCancelled)
  }

  /** The outcome of the stale-if-error fallback, after a failed refresh. */
  function FallbackResult(decision: CacheVerification): Authentication {
    match decision
    case FreshDecision(v) => VerificationResult(v)
    case StaleDecision(NoCandidate) => Err(ErrVerifierUnavailable)
    case StaleDecision(v) => VerificationResult(v)
    case NothingUsable => Err(ErrVerifierUnavailable)
    case Interrupted => Err(ErrCancelled)
  }
}
