/**
 * The request body of /register and /login, the pydantic model `UserIn`:
 * length bounds on both fields, a character class on the username, and
 * character-class requirements on the password.
 */
module UserInput {
  import opened Wrappers
  import opened Text

  const UsernameMinLength := 3
  const UsernameMaxLength := 50
  const PasswordMinLength := 8
  const PasswordMaxLength := 128

  predicate IsUpper(c: char) { 'A' <= c <= 'Z' }
  predicate IsLower(c: char) { 'a' <= c <= 'z' }

  /** `[a-zA-Z0-9_-]` */
  predicate IsUsernameChar(c: char)
  {
    IsUpper(c) || IsLower(c) || IsDigit(c) || c == '_' || c == '-'
  }

  /** Python's `$` without MULTILINE matches at the end of the string or just before a final newline. */
  predicate DollarAt(v: string, k: int)
  {
    k == |v| || (0 <= k == |v| - 1 && v[k] == '\n')
  }

  /** `re.match(r'^[a-zA-Z0-9_-]+$', v)`: one or more class characters from the start, then `$`. */
  predicate UsernamePattern(v: string)
  {
    exists k :: 1 <= k <= |v| && (forall i :: 0 <= i < k ==> IsUsernameChar(v[i])) && DollarAt(v, k)
  }

  /** `re.search(r'[A-Z]', v)` and its two siblings (`\d` read as the ASCII digits). */
  predicate HasUpper(v: string) { exists i :: 0 <= i < |v| && IsUpper(v[i]) }
  predicate HasLower(v: string) { exists i :: 0 <= i < |v| && IsLower(v[i]) }
  predicate HasDigit(v: string) { exists i :: 0 <= i < |v| && IsDigit(v[i]) }

  type Bound = n: nat | n < 1000

  /** Why a field was refused. */
  datatype FieldError =
    | TooShort(field: string, min: Bound)
    | TooLong(field: string, max: Bound)
    | UsernameCharacters
    | NoUppercase
    | NoLowercase
    | NoDigit

  /** The message for each refusal: pydantic's for the length bounds, the validators' own for the rest. */
  function ErrorText(e: FieldError): string
  {
    match e
    case TooShort(_, min) => "ensure this value has at least " + ShortDecimal(min) + " characters"
    case TooLong(_, max) => "ensure this value has at most " + ShortDecimal(max) + " characters"
    case UsernameCharacters => "Username can only contain letters, numbers, underscores, and hyphens"
    case NoUppercase => "Password must contain at least one uppercase letter"
    case NoLowercase => "Password must contain at least one lowercase letter"
    case NoDigit => "Password must contain at least one digit"
  }

  /** The username field: `Field(min_length=3, max_length=50)` first, then `validate_username`. */
  function UsernameError(v: string): Option<FieldError>
  {
    if |v| < UsernameMinLength then Some(TooShort("username", UsernameMinLength))
    else if |v| > UsernameMaxLength then Some(TooLong("username", UsernameMaxLength))
    else if !UsernamePattern(v) then Some(UsernameCharacters)
    else None
  }

  /** The password field: `Field(min_length=8, max_length=128)` first, then `validate_password`'s three searches in order. */
  function PasswordError(v: string): Option<FieldError>
  {
    if |v| < PasswordMinLength then Some(TooShort("password", PasswordMinLength))
    else if |v| > PasswordMaxLength then Some(TooLong("password", PasswordMaxLength))
    else if !HasUpper(v) then Some(NoUppercase)
    else if !HasLower(v) then Some(NoLowercase)
    else if !HasDigit(v) then Some(NoDigit)
    else None
  }

  /** A validated body. */
  datatype UserIn = UserIn(username: string, password: string)

  /** pydantic validates both fields and reports every field that failed, username first. */
  function ValidateUserIn(username: string, password: string): Result<UserIn, seq<FieldError>>
  {
    var errors := (match UsernameError(username) case Some(e) => [e] case None => [])
      + (match PasswordError(password) case Some(e) => [e] case None => []);
    if errors == [] then Success(UserIn(username, password)) else Failure(errors)
  }

  predicate AllUsernameChars(v: string)
  {
    forall i :: 0 <= i < |v| ==> IsUsernameChar(v[i])
  }

  /**
   * The username rule: 3 to 50 characters, all letters, digits, '_' or '-',
   * except that one final newline is tolerated by `$` (and counts toward the
   * length).
   */
  lemma UsernameRule(v: string)
    ensures UsernameError(v).None? <==>
      3 <= |v| <= 50 &&
      (AllUsernameChars(v) || (v[|v| - 1] == '\n' && AllUsernameChars(v[..|v| - 1])))
  {
    if 3 <= |v| <= 50 {
      if AllUsernameChars(v) {
        assert DollarAt(v, |v|);
      } else if v[|v| - 1] == '\n' && AllUsernameChars(v[..|v| - 1]) {
        assert DollarAt(v, |v| - 1);
      }
      if UsernamePattern(v) {
        var k :| 1 <= k <= |v| && (forall i :: 0 <= i < k ==> IsUsernameChar(v[i])) && DollarAt(v, k);
        if k == |v| - 1 {
          assert forall i :: 0 <= i < |v| - 1 ==> v[..|v| - 1][i] == v[i];
        }
      }
    }
  }

  /** "ab\n" passes: two visible characters and a newline meet the three-character minimum. */
  lemma TrailingNewlineUsername()
    ensures UsernameError("ab\n").None?
    ensures UsernameError("ab").Some?
  {
    UsernameRule("ab\n");
    assert "ab\n"[..2] == "ab";
  }

  /** The password rule: 8 to 128 characters with an uppercase letter, a lowercase letter and a digit. */
  lemma PasswordRule(v: string)
    ensures PasswordError(v).None? <==>
      8 <= |v| <= 128 && HasUpper(v) && HasLower(v) && HasDigit(v)
  {
  }

  /** A body is accepted exactly when both fields are; otherwise every failing field is reported once, username first. */
  lemma ValidationRule(username: string, password: string)
    ensures ValidateUserIn(username, password).Success? <==>
      UsernameError(username).None? && PasswordError(password).None?
    ensures ValidateUserIn(username, password).Failure? ==>
      var errs := ValidateUserIn(username, password).error;
      |errs| == (if UsernameError(username).Some? then 1 else 0) + (if PasswordError(password).Some? then 1 else 0) &&
      (UsernameError(username).Some? ==> errs[0] == UsernameError(username).value) &&
      (PasswordError(password).Some? ==> errs[|errs| - 1] == PasswordError(password).value)
  {
  }
}
