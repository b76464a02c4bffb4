/**
  * Token decoding and the role predicate of the authentication utilities.
  * A token's first ten characters are read as a base-36 integer (JavaScript
  * `parseInt(s, 36)`), reduced with JavaScript's truncating `%` by 1000, and
  * the mock user's openId, name and email are built from that number's text.
  */
module Auth {
  import opened Wrappers
  import opened Schema

  /** The signed-in user as the guards and handlers see it. */
  datatype Principal = Principal(id: int, role: Role)

  /** hasPermission: any signed-in user passes, except that `admin` needs the admin role. */
  function HasPermission(user: Option<Principal>, requiredRole: string): (allowed: bool)
    ensures user.None? ==> !allowed
    ensures user.Some? && requiredRole == RoleName(AdminRole) ==> (allowed <==> user.value.role == AdminRole)
    ensures user.Some? && requiredRole != RoleName(AdminRole) ==> allowed
  {
    if user.None? then false
    else if requiredRole == "admin" then user.value.role == AdminRole
    else true
  }

  /** Passing the admin check implies passing the check for every role. */
  lemma AdminPermissionImpliesAll(user: Option<Principal>, requiredRole: string)
    requires HasPermission(user, RoleName(AdminRole))
    ensures HasPermission(user, requiredRole)
  {
  }

  // ---------------------------------------------------------------------------
  // JavaScript numbers as far as the token decoding needs them
  // ---------------------------------------------------------------------------

  /** The result of `parseInt`: an integer, or NaN when no digit is found. */
  datatype JsNumber = Num(n: int) | NaN

  /** The characters `parseInt` skips before the sign: WhiteSpace and LineTerminator of ECMAScript. */
  predicate IsJsWhitespace(c: char)
  {
    || c == '\U{0009}' || c == '\U{000B}' || c == '\U{000C}' || c == '\U{FEFF}'
    || c == '\U{0020}' || c == '\U{00A0}' || c == '\U{1680}' || ('\U{2000}' <= c <= '\U{200A}')
    || c == '\U{202F}' || c == '\U{205F}' || c == '\U{3000}'
    || c == '\U{000A}' || c == '\U{000D}' || c == '\U{2028}' || c == '\U{2029}'
  }

  predicate IsBase36Digit(c: char)
  {
    ('0' <= c <= '9') || ('a' <= c <= 'z') || ('A' <= c <= 'Z')
  }

  predicate AllBase36Digits(s: string)
  {
    forall i :: 0 <= i < |s| ==> IsBase36Digit(s[i])
  }

  /** The digit's value; letters are case-insensitive. */
  function Base36Value(c: char): (d: nat)
    requires IsBase36Digit(c)
    ensures d < 36
    ensures ('0' <= c <= '9') <==> d < 10
  {
    if '0' <= c <= '9' then c as int - '0' as int
    else if 'a' <= c <= 'z' then c as int - 'a' as int + 10
    else c as int - 'A' as int + 10
  }

  /** The value of a string of base-36 digits, most significant first. */
  function DigitsValue(ds: string): nat
    requires AllBase36Digits(ds)
    decreases |ds|
  {
    if ds == [] then 0 else DigitsValue(ds[..|ds| - 1]) * 36 + Base36Value(ds[|ds| - 1])
  }

  /** `s` without its leading whitespace. */
  function TrimStart(s: string): (t: string)
    ensures |t| <= |s| && t == s[|s| - |t|..]
    ensures forall i :: 0 <= i < |s| - |t| ==> IsJsWhitespace(s[i])
    ensures t == [] || !IsJsWhitespace(t[0])
  {
    if s != [] && IsJsWhitespace(s[0]) then TrimStart(s[1..]) else s
  }

  /** The length of the longest prefix of base-36 digits. */
  function DigitPrefixLength(s: string): (n: nat)
    ensures n <= |s|
    ensures AllBase36Digits(s[..n])
    ensures n < |s| ==> !IsBase36Digit(s[n])
  {
    if s == [] || !IsBase36Digit(s[0]) then 0
    else
      var m := DigitPrefixLength(s[1..]);
      assert s[..m + 1] == [s[0]] + s[1..][..m];
      m + 1
  }

  /** `parseInt(s, 36)`: skip whitespace, then read what follows it. */
  function ParseIntRadix36(s: string): JsNumber
  {
    ParseTrimmed(TrimStart(s))
  }

  /** One optional sign, then the longest run of digits; NaN when that run is empty. */
  function ParseTrimmed(t: string): JsNumber
  {
    var negative := t != [] && t[0] == '-';
    var body := if t != [] && (t[0] == '-' || t[0] == '+') then t[1..] else t;
    var n := DigitPrefixLength(body);
    if n == 0 then NaN
    else if negative then Num(-(DigitsValue(body[..n]) as int))
    else Num(DigitsValue(body[..n]))
  }

  /** A string made only of digits parses to its value. */
  lemma ParseAllDigits(s: string)
    requires s != [] && AllBase36Digits(s)
    ensures ParseIntRadix36(s) == Num(DigitsValue(s))
  {
    assert !IsJsWhitespace(s[0]);
    assert TrimStart(s) == s;
    assert DigitPrefixLength(s) == |s|;
    assert s[..|s|] == s;
  }

  /** Leading whitespace never changes what `parseInt` reads. */
  lemma ParseSkipsWhitespace(w: string, s: string)
    requires forall i :: 0 <= i < |w| ==> IsJsWhitespace(w[i])
    ensures ParseIntRadix36(w + s) == ParseIntRadix36(s)
  {
    TrimSkipsWhitespace(w, s);
  }

  lemma {:induction false} TrimSkipsWhitespace(w: string, s: string)
    requires forall i :: 0 <= i < |w| ==> IsJsWhitespace(w[i])
    ensures TrimStart(w + s) == TrimStart(s)
    decreases |w|
  {
    if w != [] {
      assert (w + s)[0] == w[0] && (w + s)[1..] == w[1..] + s;
      TrimSkipsWhitespace(w[1..], s);
    } else {
      assert w + s == s;
    }
  }

  /** JavaScript's `%` on integers: truncating, so the remainder takes the dividend's sign. */
  function JsRem(a: int, b: int): (r: int)
    requires b > 0
    ensures -b < r < b
    ensures a >= 0 ==> 0 <= r
    ensures a <= 0 ==> r <= 0
    ensures Abs(r) == Abs(a) % b
  {
    if a >= 0 then a % b else -((-a) % b)
  }

  function Abs(x: int): (y: nat)
    ensures y == x || y == -x
  {
    if x < 0 then -x else x
  }

  /** `NaN % m` is NaN; otherwise the truncating remainder. */
  function NumRem(x: JsNumber, m: int): (r: JsNumber)
    requires m > 0
    ensures r.NaN? <==> x.NaN?
    ensures r.Num? ==> -m < r.n < m && Abs(r.n) == Abs(x.n) % m
    ensures r.Num? ==> (x.n >= 0 ==> r.n >= 0) && (x.n <= 0 ==> r.n <= 0)
  {
    if x.NaN? then NaN else Num(JsRem(x.n, m))
  }

  // ---------------------------------------------------------------------------
  // Number to text (a template literal)
  // ---------------------------------------------------------------------------

  predicate IsDecimalDigit(c: char)
  {
    '0' <= c <= '9'
  }

  /** The decimal numeral of `n`, without leading zeros. */
  function NatToDecimal(n: nat): (s: string)
    ensures 1 <= |s|
    ensures forall i :: 0 <= i < |s| ==> IsDecimalDigit(s[i])
    ensures s[0] == '0' ==> n == 0
    decreases n
  {
    var digit := ('0' as int + n % 10) as char;
    if n < 10 then [digit] else NatToDecimal(n / 10) + [digit]
  }

  /** The value of a decimal numeral, the reference reading of NatToDecimal. */
  function DecimalValue(s: string): nat
    requires forall i :: 0 <= i < |s| ==> IsDecimalDigit(s[i])
    decreases |s|
  {
    if s == [] then 0 else DecimalValue(s[..|s| - 1]) * 10 + DecimalDigitValue(s[|s| - 1])
  }

  function DecimalDigitValue(c: char): (d: nat)
    requires IsDecimalDigit(c)
    ensures d < 10
  {
    c as int - '0' as int
  }

  lemma {:induction false} DecimalRoundTrip(n: nat)
    ensures DecimalValue(NatToDecimal(n)) == n
    decreases n
  {
    var s := NatToDecimal(n);
    if n >= 10 {
      DecimalRoundTrip(n / 10);
      assert s[..|s| - 1] == NatToDecimal(n / 10);
    }
  }

  /** Numerals of n < 10^k have at most k digits. */
  lemma {:induction false} DecimalLength(n: nat, k: nat)
    requires n < Pow10(k)
    ensures |NatToDecimal(n)| <= k || (n == 0 && k == 0)
    decreases n
  {
    if n >= 10 {
      assert k >= 1;
      DecimalLength(n / 10, k - 1);
    } else if k == 0 {
      assert n == 0;
    }
  }

  function Pow10(k: nat): (p: nat)
    ensures p >= 1
  {
    if k == 0 then 1 else 10 * Pow10(k - 1)
  }

  /** `${x}` for the numbers a token can produce. */
  function NumberText(x: JsNumber): (s: string)
    ensures 1 <= |s|
  {
    match x
    case NaN => "NaN"
    case Num(n) => if n < 0 then "-" + NatToDecimal(-n) else NatToDecimal(n)
  }

  /** The first character tells NaN, negative and non-negative numbers apart. */
  lemma NumberTextHead(x: JsNumber)
    ensures x.NaN? <==> NumberText(x)[0] == 'N'
    ensures x.Num? && x.n < 0 <==> NumberText(x)[0] == '-'
    ensures x.Num? && x.n >= 0 <==> IsDecimalDigit(NumberText(x)[0])
  {
  }

  /** Distinct numbers have distinct text. */
  lemma NumberTextInjective(x: JsNumber, y: JsNumber)
    requires NumberText(x) == NumberText(y)
    ensures x == y
  {
    NumberTextHead(x);
    NumberTextHead(y);
    if x.Num? && y.Num? && x.n < 0 && y.n < 0 {
      assert NatToDecimal(-x.n) == NumberText(x)[1..] == NatToDecimal(-y.n);
      DecimalRoundTrip(-x.n);
      DecimalRoundTrip(-y.n);
    } else if x.Num? && y.Num? && x.n >= 0 && y.n >= 0 {
      DecimalRoundTrip(x.n);
      DecimalRoundTrip(y.n);
    }
  }

  // ---------------------------------------------------------------------------
  // getUserFromToken
  // ---------------------------------------------------------------------------

  datatype AuthError = InvalidTokenFormat

  /** The mock user a token stands for; `id` may be NaN. */
  datatype TokenUser = TokenUser(
    id: JsNumber, openId: string, name: string, email: string, role: Role,
    createdAt: int, lastSignedIn: int)

  const TokenPrefixLength := 10
  const UserIdModulus := 1000

  /** The id a token of at least ten characters decodes to. */
  function TokenUserId(token: string): (id: JsNumber)
    requires |token| >= TokenPrefixLength
    ensures id.Num? ==> -UserIdModulus < id.n < UserIdModulus
  {
    NumRem(ParseIntRadix36(token[..TokenPrefixLength]), UserIdModulus)
  }

  function GetUserFromToken(token: string, now: int): (r: Result<TokenUser, AuthError>)
    ensures r.Err? <==> |token| < TokenPrefixLength
    ensures r.Ok? ==> r.value.id == TokenUserId(token) && r.value.role == UserRole
    ensures r.Ok? ==> r.value.createdAt == now && r.value.lastSignedIn == now
    ensures r.Ok? ==> r.value.openId == "user_" + NumberText(r.value.id)
    ensures r.Ok? ==> r.value.name == "User " + NumberText(r.value.id)
    ensures r.Ok? ==> r.value.email == "user" + NumberText(r.value.id) + "@example.com"
  {
    if |token| < TokenPrefixLength then Err(InvalidTokenFormat)
    else
      var id := TokenUserId(token);
      var text := NumberText(id);
      Ok(TokenUser(id, "user_" + text, "User " + text, "user" + text + "@example.com", UserRole, now, now))
  }

  /** Ten base-36 digits give an id in [0, 999]. */
  lemma TokenIdInRange(token: string, now: int)
    requires |token| >= TokenPrefixLength && AllBase36Digits(token[..TokenPrefixLength])
    ensures GetUserFromToken(token, now).Ok?
    ensures GetUserFromToken(token, now).value.id.Num?
    ensures 0 <= GetUserFromToken(token, now).value.id.n <= 999
  {
    ParseAllDigits(token[..TokenPrefixLength]);
  }

  /** The openId is `user_` then the id's text: never empty, at most 9 characters, and it determines the id. */
  lemma TokenOpenIdShape(token: string, now: int)
    requires |token| >= TokenPrefixLength
    ensures var u := GetUserFromToken(token, now).value;
            && u.openId == "user_" + NumberText(u.id)
            && |u.openId| <= 9 <= OpenIdMaxLength
  {
    var id := TokenUserId(token);
    if id.Num? {
      var m := if id.n < 0 then -id.n else id.n;
      DecimalLength(m, 3);
    }
  }

  /** Two tokens give the same openId exactly when they give the same id. */
  lemma TokenOpenIdIdentifiesUser(token1: string, token2: string, now: int)
    requires |token1| >= TokenPrefixLength && |token2| >= TokenPrefixLength
    ensures GetUserFromToken(token1, now).value.openId == GetUserFromToken(token2, now).value.openId
            <==> TokenUserId(token1) == TokenUserId(token2)
  {
    var a := GetUserFromToken(token1, now).value.openId;
    var b := GetUserFromToken(token2, now).value.openId;
    if a == b {
      assert a[5..] == NumberText(TokenUserId(token1));
      assert b[5..] == NumberText(TokenUserId(token2));
      NumberTextInjective(TokenUserId(token1), TokenUserId(token2));
    }
  }
}
