/** Server-side authentication helpers: reading the bearer token from the request,
    the two guards every protected handler starts with, and the invoice number.
    Signing and checking tokens (jsonwebtoken) and hashing (bcrypt) are foreign code;
    they reach the model as function parameters. */
module AuthUtils {
  import opened Wrappers
  import opened Text
  import opened Schema

  /** The claims carried by a session token. */
  datatype JwtPayload = JwtPayload(userId: nat, username: string, role: Role)

  /** What `jwt.verify` does with a token: return its claims or throw. */
  datatype JwtOutcome = Verified(payload: JwtPayload) | Thrown

  const BearerPrefix: string := "Bearer "

  /** `verifyToken`: the claims, or null when verification throws for any reason. */
  function VerifyToken(token: string, jwtVerify: string -> JwtOutcome): (r: Option<JwtPayload>)
    ensures r.None? <==> jwtVerify(token).Thrown?
    ensures r.Some? ==> r.value == jwtVerify(token).payload
  {
    match jwtVerify(token)
    case Verified(p) => Some(p)
    case Thrown => None
  }

  /** `getUserFromEvent`: null unless the Authorization header starts with "Bearer ";
      otherwise the verdict on everything after those seven characters. */
  function UserFromHeader(header: Option<string>, jwtVerify: string -> JwtOutcome): (r: Option<JwtPayload>)
    ensures header.None? ==> r.None?
    ensures header.Some? && !StartsWith(header.value, BearerPrefix) ==> r.None?
    ensures header.Some? && StartsWith(header.value, BearerPrefix) ==>
      r == VerifyToken(header.value[|BearerPrefix|..], jwtVerify)
  {
    if header.None? || header.value == "" || !StartsWith(header.value, BearerPrefix) then None
    else VerifyToken(Substring(header.value, 7), jwtVerify)
  }

  /** `requireAuth`, given what `getUserFromEvent` found: 401 exactly when nobody was found,
      otherwise the claims unchanged. */
  function RequireAuth(caller: Option<JwtPayload>): (r: Result<JwtPayload>)
    ensures r.Err? <==> caller.None?
    ensures r.Err? ==> r.error == HttpError(401, LoginRequired)
    ensures r.Ok? ==> r.value == caller.value
  {
    match caller
    case None => Err(HttpError(401, LoginRequired))
    case Some(p) => Ok(p)
  }

  /** `requireAdmin`: 401 without a user, 403 for a user who is not ADMIN, else the claims. */
  function RequireAdmin(caller: Option<JwtPayload>): (r: Result<JwtPayload>)
    ensures caller.None? ==> r == Err(HttpError(401, LoginRequired))
    ensures caller.Some? && caller.value.role != ADMIN ==> r == Err(HttpError(403, AccessDenied))
    ensures r.Ok? <==> caller.Some? && caller.value.role == ADMIN
    ensures r.Ok? ==> r.value == caller.value
  {
    match RequireAuth(caller)
    case Err(e) => Err(e)
    case Ok(user) =>
      if user.role != ADMIN then Err(HttpError(403, AccessDenied)) else Ok(user)
  }

  // ------------------------------------------------------------------ invoice numbers

  /** `Math.floor(Math.random() * 10000)` for a draw u in [0, 1). */
  function RandomSuffix(u: real): (n: nat)
    requires 0.0 <= u < 1.0
    ensures n < 10000
  {
    (u * 10000.0).Floor
  }

  /** `generateInvoiceNumber`: "INV", the last two characters of the year, the month
      (`getMonth() + 1`) and the day each padded to two digits, and the random suffix
      padded to four. */
  function GenerateInvoiceNumber(year: nat, monthIndex: nat, day: nat, u: real): (s: string)
    requires 0.0 <= u < 1.0
    ensures StartsWith(s, "INV")
  {
    "INV" + SliceLast2(NatToString(year))
      + PadStart(NatToString(monthIndex + 1), 2, '0')
      + PadStart(NatToString(day), 2, '0')
      + PadStart(NatToString(RandomSuffix(u)), 4, '0')
  }

  /** Reads the four numbers back from the fixed positions of an invoice number. */
  function ParseInvoiceNumber(s: string): (r: Option<(nat, nat, nat, nat)>)
    ensures r.Some? ==> |s| == 13 && StartsWith(s, "INV") && AllDigits(s[3..])
  {
    if |s| == 13 && StartsWith(s, "INV") && AllDigits(s[3..]) then
      assert AllDigits(s[3..5]) && AllDigits(s[5..7]) && AllDigits(s[7..9]) && AllDigits(s[9..13]) by {
        assert s[3..5] == s[3..][..2] && s[5..7] == s[3..][2..4];
        assert s[7..9] == s[3..][4..6] && s[9..13] == s[3..][6..];
      }
      Some((DigitsValue(s[3..5]), DigitsValue(s[5..7]), DigitsValue(s[7..9]), DigitsValue(s[9..13])))
    else None
  }

  /** For a year of at least two digits, a real month and day and any draw, the invoice
      number is 13 characters, "INV" followed by digits only, and the year's last two
      digits, the month, the day and the suffix can be read back from it. */
  lemma InvoiceNumberRoundTrip(year: nat, monthIndex: nat, day: nat, u: real)
    requires year >= 10 && monthIndex < 12 && 1 <= day <= 31 && 0.0 <= u < 1.0
    ensures |GenerateInvoiceNumber(year, monthIndex, day, u)| == 13
    ensures AllDigits(GenerateInvoiceNumber(year, monthIndex, day, u)[3..])
    ensures ParseInvoiceNumber(GenerateInvoiceNumber(year, monthIndex, day, u))
         == Some((year % 100, monthIndex + 1, day, RandomSuffix(u)))
  {
    Last2Digits(year);
    PaddedNumber(monthIndex + 1, 2);
    PaddedNumber(day, 2);
    PaddedNumber(RandomSuffix(u), 4);
    InvoiceFields(SliceLast2(NatToString(year)),
                  PadStart(NatToString(monthIndex + 1), 2, '0'),
                  PadStart(NatToString(day), 2, '0'),
                  PadStart(NatToString(RandomSuffix(u)), 4, '0'));
  }

  /** The fields of "INV" + four fixed-width digit runs sit at positions 3, 5, 7 and 9. */
  lemma InvoiceFields(yy: string, mm: string, dd: string, rr: string)
    requires |yy| == 2 && |mm| == 2 && |dd| == 2 && |rr| == 4
    requires AllDigits(yy) && AllDigits(mm) && AllDigits(dd) && AllDigits(rr)
    ensures |"INV" + yy + mm + dd + rr| == 13
    ensures AllDigits(("INV" + yy + mm + dd + rr)[3..])
    ensures ParseInvoiceNumber("INV" + yy + mm + dd + rr)
         == Some((DigitsValue(yy), DigitsValue(mm), DigitsValue(dd), DigitsValue(rr)))
  {
    var s := "INV" + yy + mm + dd + rr;
    var t := s[3..];
    assert t == yy + mm + dd + rr;
    forall i | 0 <= i < |t| ensures IsDigit(t[i]) {
      if i < 2 { assert t[i] == yy[i]; }
      else if i < 4 { assert t[i] == mm[i - 2]; }
      else if i < 6 { assert t[i] == dd[i - 4]; }
      else { assert t[i] == rr[i - 6]; }
    }
    assert s[..3] == "INV";
    assert s[3..5] == yy && s[5..7] == mm && s[7..9] == dd && s[9..13] == rr;
  }
}
