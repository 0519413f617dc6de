/** Email normalisation, password rules and opaque-token digests. */
module Security {
  import opened Text

  /** The errors the service returns.  The first eight are its sentinels. */
  datatype Error =
    | EmailExists | InvalidEmail | InvalidCredentials | InvalidOrgSelection
    | InvalidToken | OrgSelectionRequired | WeakPassword | WrongPassword
    | NoRows                            // pgx.ErrNoRows, passed through
    | Internal                          // any other infrastructure error, passed through
    | RollbackFailed(original: Error)
    | BeginFailed | CommitFailed

  datatype Result<+T> = Ok(value: T) | Err(error: Error)

  /** SHA-256 in hex, taken to be injective. */
  datatype Digest = Sha256(token: string)

  /** The Redis key of a password reset: "pwreset:" and a digest. */
  datatype CacheKey = PwReset(digest: Digest)

  const MIN_PASSWORD_LENGTH := 12

  /** `bareAddress(s)` stands for mail.ParseAddress succeeding on s with s itself as the address. */
  function NormalizeEmail(go: Chars, bareAddress: string -> bool, email: string): Result<string> {
    var normalized := ToLower(go, Trim(go, email));
    if normalized == "" then Err(InvalidEmail)
    else if !bareAddress(normalized) then Err(InvalidEmail)
    else Ok(normalized)
  }

  /** What is asked of an email: between its outer spaces something is left, and lowered it is an address;
      that lowered text is the normal form. */
  lemma NormalizedIs(go: Chars, bareAddress: string -> bool, email: string) returns (i: nat, j: nat)
    ensures Core(go, email, i, j)
    ensures var n := seq(j - i, k requires 0 <= k < j - i => go.lower(email[i + k]));
      NormalizeEmail(go, bareAddress, email) == if i < j && bareAddress(n) then Ok(n) else Err(InvalidEmail)
  {
    i, j := TrimIsCore(go, email);
    var n := seq(j - i, k requires 0 <= k < j - i => go.lower(email[i + k]));
    assert ToLower(go, Trim(go, email)) == n;
  }

  /** Bytes of a character in UTF-8; Go's len counts these. */
  function Utf8Width(c: char): nat {
    if c as int < 0x80 then 1 else if c as int < 0x800 then 2 else if c as int < 0x1_0000 then 3 else 4
  }

  function ByteLength(s: string): nat {
    if s == "" then 0 else ByteLength(s[..|s| - 1]) + Utf8Width(s[|s| - 1])
  }

  /** A password is strong when it has twelve bytes or more and one character of each class. */
  ghost predicate StrongPassword(go: Chars, s: string) {
    && ByteLength(s) >= MIN_PASSWORD_LENGTH
    && (exists i :: 0 <= i < |s| && go.isUpper(s[i]))
    && (exists i :: 0 <= i < |s| && go.isLower(s[i]))
    && (exists i :: 0 <= i < |s| && go.isDigit(s[i]))
  }

  /** No character is in two of the classes. */
  ghost predicate ClassesDisjoint(go: Chars) {
    forall c: char ::
      && !(go.isUpper(c) && go.isLower(c))
      && !(go.isUpper(c) && go.isDigit(c))
      && !(go.isLower(c) && go.isDigit(c))
  }

  /** The rune loop tests the classes one after the other; on disjoint classes it decides strength. */
  method ValidatePassword(go: Chars, password: string) returns (r: Result<()>)
    requires ClassesDisjoint(go)
    ensures r.Ok? <==> StrongPassword(go, password)
    ensures r.Err? ==> r.error == WeakPassword
  {
    if ByteLength(password) < MIN_PASSWORD_LENGTH {
      return Err(WeakPassword);
    }
    var hasUpper, hasLower, hasDigit := false, false, false;
    for i := 0 to |password|
      invariant hasUpper <==> exists j :: 0 <= j < i && go.isUpper(password[j])
      invariant hasLower <==> exists j :: 0 <= j < i && go.isLower(password[j])
      invariant hasDigit <==> exists j :: 0 <= j < i && go.isDigit(password[j])
    {
      var c := password[i];
      if go.isUpper(c) {
        hasUpper := true;
      } else if go.isLower(c) {
        hasLower := true;
      } else if go.isDigit(c) {
        hasDigit := true;
      }
    }
    if !hasUpper || !hasLower || !hasDigit {
      return Err(WeakPassword);
    }
    return Ok(());
  }

  function HashOpaqueToken(token: string): Digest {
    Sha256(token)
  }

  function PasswordResetCacheKey(token: string): CacheKey {
    PwReset(HashOpaqueToken(token))
  }
}
