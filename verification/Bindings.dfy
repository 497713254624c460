/** Parameter bindings: the text they are printed as inside a rewritten WHERE
    clause, and the parser that reads them back. */
module Bindings {
  import opened Common
  import opened WhereText

  datatype Binding =
    | AuthParameter(name: string)
    | SubscriptionParameter(name: string)
    | RequestUserId
    | RequestJwt(claim: string)
    | RequestParameter(name: string)
    | RequestParameterArray(name: string)

  // ------------------------------------------------------------------
  // String literals
  // ------------------------------------------------------------------

  /** Double every apostrophe. */
  function Escape(s: string): string {
    if s == "" then ""
    else if s[0] == '\'' then "''" + Escape(s[1..])
    else [s[0]] + Escape(s[1..])
  }

  /** Replace doubled quotes by one, scanning left to right. */
  function Unescape(quote: char, s: string): string {
    if |s| < 2 then s
    else if s[0] == quote && s[1] == quote then [quote] + Unescape(quote, s[2..])
    else [s[0]] + Unescape(quote, s[1..])
  }

  function Quoted(s: string): string {
    "'" + Escape(s) + "'"
  }

  function ParseLiteral(text: string): Option<string> {
    var value := Trim(text);
    if |value| < 2 then None
    else if value[0] !in {'\'', '"'} || value[|value| - 1] != value[0] then None
    else Some(Unescape(value[0], value[1..|value| - 1]))
  }

  lemma {:induction false} UnescapeEscape(s: string)
    ensures Unescape('\'', Escape(s)) == s
  {
    if s != "" {
      var rest := Escape(s[1..]);
      UnescapeEscape(s[1..]);
      if s[0] == '\'' {
        assert ("''" + rest)[2..] == rest;
      } else {
        assert ([s[0]] + rest)[1..] == rest;
      }
    }
  }

  lemma LiteralRoundTrip(s: string)
    ensures Trim(Quoted(s)) == Quoted(s) && ParseLiteral(Quoted(s)) == Some(s)
  {
    var q := Quoted(s);
    TrimKeeps(q);
    assert q[1..|q| - 1] == Escape(s);
    UnescapeEscape(s);
  }

  // ------------------------------------------------------------------
  // Parsing
  // ------------------------------------------------------------------

  function Lowered(s: string): string {
    seq(|s|, i requires 0 <= i < |s| => Lower(s[i]))
  }

  predicate SameIgnoringCase(s: string, t: string) {
    Lowered(s) == Lowered(t)
  }

  predicate EndsWith(s: string, t: string) {
    |t| <= |s| && s[|s| - |t|..] == t
  }

  function StripCall(value: string, prefix: string): Option<string> {
    if !(prefix <= Lowered(value)) || !EndsWith(value, ")") || |value| < |prefix| + 1 then None
    else Some(value[|prefix|..|value| - 1])
  }

  function CallArgument(value: string, prefix: string): Option<string> {
    match StripCall(value, prefix)
    case None => None
    case Some(inner) => ParseLiteral(Trim(inner))
  }

  /** The position of the first occurrence of `needle`. */
  function Find(value: string, needle: string): Option<nat> {
    if |value| < |needle| then None
    else if value[..|needle|] == needle then Some(0)
    else if value == "" then None
    else match Find(value[1..], needle)
      case None => None
      case Some(i) => Some(i + 1)
  }

  const ARROW: string := "->>"

  lemma {:induction false} FindInside(value: string, needle: string)
    ensures Find(value, needle).Some? ==> Find(value, needle).value + |needle| <= |value|
  {
    if |value| >= |needle| && value[..|needle|] != needle && value != "" {
      FindInside(value[1..], needle);
    }
  }

  function ArrowArgument(value: string, left: string): Option<string> {
    match Find(value, ARROW)
    case None => None
    case Some(i) =>
      FindInside(value, ARROW);
      if !SameIgnoringCase(Trim(value[..i]), left) then None
      else ParseLiteral(Trim(value[i + |ARROW|..]))
  }

  datatype Form = Auth | Subscription | Jwt | Request | RequestArray

  function Make(form: Form, name: Option<string>): Option<Binding> {
    if name.None? then None else
      match form
      case Auth => Some(AuthParameter(name.value))
      case Subscription => Some(SubscriptionParameter(name.value))
      case Jwt => Some(RequestJwt(name.value))
      case Request => Some(RequestParameter(name.value))
      case RequestArray => Some(RequestParameterArray(name.value))
  }

  function OrElse(a: Option<Binding>, b: Option<Binding>): Option<Binding> {
    if a.Some? then a else b
  }

  const AUTH_PARAMETER: string := "auth.parameter("
  const CONNECTION_PARAMETER: string := "connection.parameter("
  const SUBSCRIPTION_PARAMETER: string := "subscription.parameter("
  const PARAMETER_ARRAY: string := "request.parameter_array("
  const CONNECTION_PARAMETERS: string := "connection.parameters()"
  const REQUEST_JWT: string := "request.jwt()"
  const REQUEST_PARAMETERS: string := "request.parameters()"
  const AUTH_USER_ID: string := "auth.user_id()"
  const REQUEST_USER_ID: string := "request.user_id()"

  function UserId(value: string, text: string): Option<Binding> {
    if SameIgnoringCase(value, text) then Some(RequestUserId) else None
  }

  /** The forms are tried in this order, these first. */
  function ParseBinding(text: string): Option<Binding> {
    var v := Trim(text);
    OrElse(Make(Auth, CallArgument(v, AUTH_PARAMETER)),
    OrElse(UserId(v, AUTH_USER_ID),
    OrElse(Make(Request, ArrowArgument(v, CONNECTION_PARAMETERS)),
    OrElse(Make(Request, CallArgument(v, CONNECTION_PARAMETER)),
    OrElse(Make(Subscription, CallArgument(v, SUBSCRIPTION_PARAMETER)),
           ParseRequestForm(v))))))
  }

  function ParseRequestForm(v: string): Option<Binding> {
    OrElse(UserId(v, REQUEST_USER_ID),
    OrElse(Make(Jwt, ArrowArgument(v, REQUEST_JWT)),
    OrElse(Make(Request, ArrowArgument(v, REQUEST_PARAMETERS)),
           Make(RequestArray, CallArgument(v, PARAMETER_ARRAY)))))
  }

  /** The text a binding is printed as. */
  function Print(b: Binding): string {
    match b
    case AuthParameter(name) => AUTH_PARAMETER + Quoted(name) + ")"
    case SubscriptionParameter(name) => SUBSCRIPTION_PARAMETER + Quoted(name) + ")"
    case RequestUserId => REQUEST_USER_ID
    case RequestJwt(claim) => REQUEST_JWT + " ->> " + Quoted(claim)
    case RequestParameter(name) => REQUEST_PARAMETERS + " ->> " + Quoted(name)
    case RequestParameterArray(name) => PARAMETER_ARRAY + Quoted(name) + ")"
  }

  // ------------------------------------------------------------------
  // Round trip
  // ------------------------------------------------------------------

  /** Texts whose lower-cased forms already differ at a position in both. */
  predicate DifferAt(s: string, t: string, i: nat) {
    i < |s| && i < |t| && Lower(s[i]) != Lower(t[i])
  }

  lemma CallReadsBack(prefix: string, name: string)
    requires prefix != "" && Lowered(prefix) == prefix && !IsSpace(prefix[0])
    ensures var v := prefix + Quoted(name) + ")"; Trim(v) == v && CallArgument(v, prefix) == Some(name)
  {
    var v := prefix + Quoted(name) + ")";
    TrimKeeps(v);
    assert Lowered(v)[..|prefix|] == prefix;
    assert v[|v| - 1..] == ")" && v[|prefix|..|v| - 1] == Quoted(name);
    LiteralRoundTrip(name);
  }

  lemma OtherCall(v: string, prefix: string, i: nat)
    requires i < |v| && i < |prefix| && Lower(v[i]) != prefix[i]
    ensures CallArgument(v, prefix).None?
  {
  }

  lemma OtherText(v: string, text: string, i: nat)
    requires DifferAt(v, text, i)
    ensures !SameIgnoringCase(v, text)
  {
    assert Lowered(v)[i] == Lower(v[i]) && Lowered(text)[i] == Lower(text[i]);
  }

  lemma TrimEndPrefix(s: string)
    ensures TrimEnd(s) <= s
  {
  }

  /** What stands left of an arrow differs from `left` if the text does so before its arrow. */
  lemma OtherArrow(v: string, left: string, i: nat)
    requires v != "" && !IsSpace(v[0]) && DifferAt(v, left, i)
    ensures ArrowArgument(v, left).None?
  {
    var at := Find(v, ARROW);
    if at.Some? {
      FindInside(v, ARROW);
      var l := Trim(v[..at.value]);
      TrimEndPrefix(v[..at.value]);
      if at.value == 0 {
        assert v[..0] == "";
      }
      assert l <= v;
      if i < |l| {
        OtherText(l, left, i);
      } else {
        assert |Lowered(l)| < |Lowered(left)|;
      }
    }
  }

  lemma {:induction false} FindAfter(s: string, rest: string)
    requires forall c | c in s :: c != '-'
    ensures Find(s + (ARROW + rest), ARROW) == Some(|s|)
  {
    var v := s + (ARROW + rest);
    if s == "" {
      assert v == ARROW + rest && v[..3] == ARROW;
    } else {
      assert s[0] in s;
      assert v[..3][0] == s[0];
      assert v[1..] == s[1..] + (ARROW + rest);
      assert forall c | c in s[1..] :: c in s;
      FindAfter(s[1..], rest);
    }
  }

  lemma ArrowReadsBack(left: string, name: string)
    requires left != "" && !IsSpace(left[0]) && !IsSpace(left[|left| - 1]) && forall c | c in left :: c != '-'
    ensures var v := left + " ->> " + Quoted(name); Trim(v) == v && ArrowArgument(v, left) == Some(name)
  {
    var v, q := left + " ->> " + Quoted(name), Quoted(name);
    TrimKeeps(v);
    assert v == (left + " ") + (ARROW + (" " + q));
    FindAfter(left + " ", " " + q);
    assert v[..|left| + 1] == left + " ";
    TrimStartAppendSpace(left, ' ');
    TrimKeeps(left);
    assert v[|left| + 4..] == " " + q && (" " + q)[1..] == q;
    LiteralRoundTrip(name);
  }

  lemma PrintedCallParses(name: string)
    ensures ParseBinding(Print(AuthParameter(name))) == Some(AuthParameter(name))
  {
    CallReadsBack(AUTH_PARAMETER, name);
  }

  /** None of the first forms but `subscription` applies to a text that begins with another letter. */
  lemma NoEarlierForm(v: string)
    requires v != "" && !IsSpace(v[0]) && Lower(v[0]) != 'a' && Lower(v[0]) != 'c' && Trim(v) == v
    ensures ParseBinding(v) == OrElse(Make(Subscription, CallArgument(v, SUBSCRIPTION_PARAMETER)), ParseRequestForm(v))
  {
    OtherCall(v, AUTH_PARAMETER, 0);
    OtherText(v, AUTH_USER_ID, 0);
    OtherArrow(v, CONNECTION_PARAMETERS, 0);
    OtherCall(v, CONNECTION_PARAMETER, 0);
  }

  lemma PrintedSubscriptionParses(name: string)
    ensures ParseBinding(Print(SubscriptionParameter(name))) == Some(SubscriptionParameter(name))
  {
    CallReadsBack(SUBSCRIPTION_PARAMETER, name);
    NoEarlierForm(Print(SubscriptionParameter(name)));
  }

  /** Only the request forms apply to a text that begins with `r`. */
  lemma RequestFormsOnly(v: string)
    requires v != "" && v[0] == 'r' && Trim(v) == v
    ensures ParseBinding(v) == ParseRequestForm(v)
  {
    NoEarlierForm(v);
    OtherCall(v, SUBSCRIPTION_PARAMETER, 0);
  }

  lemma PrintedUserIdParses()
    ensures ParseBinding(Print(RequestUserId)) == Some(RequestUserId)
  {
    TrimKeeps(REQUEST_USER_ID);
    RequestFormsOnly(REQUEST_USER_ID);
  }

  lemma JwtForm(v: string, claim: string)
    requires |v| > 8 && v[0] == 'r' && v[8] == 'j' && Trim(v) == v && ArrowArgument(v, REQUEST_JWT) == Some(claim)
    ensures ParseBinding(v) == Some(RequestJwt(claim))
  {
    RequestFormsOnly(v);
    OtherText(v, REQUEST_USER_ID, 8);
  }

  lemma PrintedJwtParses(claim: string)
    ensures ParseBinding(Print(RequestJwt(claim))) == Some(RequestJwt(claim))
  {
    ArrowReadsBack(REQUEST_JWT, claim);
    JwtForm(Print(RequestJwt(claim)), claim);
  }

  /** Neither the user id nor a claim reads as a parameter. */
  lemma ParameterFormsOnly(v: string)
    requires |v| > 8 && v[0] == 'r' && v[8] == 'p' && Trim(v) == v
    ensures ParseBinding(v) == OrElse(Make(Request, ArrowArgument(v, REQUEST_PARAMETERS)), Make(RequestArray, CallArgument(v, PARAMETER_ARRAY)))
  {
    RequestFormsOnly(v);
    OtherText(v, REQUEST_USER_ID, 8);
    OtherArrow(v, REQUEST_JWT, 8);
  }

  lemma ParameterForm(v: string, name: string)
    requires |v| > 8 && v[0] == 'r' && v[8] == 'p' && Trim(v) == v && ArrowArgument(v, REQUEST_PARAMETERS) == Some(name)
    ensures ParseBinding(v) == Some(RequestParameter(name))
  {
    ParameterFormsOnly(v);
  }

  lemma ParametersText()
    ensures |REQUEST_PARAMETERS| == 20 && REQUEST_PARAMETERS[0] == 'r' && REQUEST_PARAMETERS[8] == 'p' && REQUEST_PARAMETERS[19] == ')'
    ensures forall c | c in REQUEST_PARAMETERS :: c != '-'
  {
  }

  lemma PrintedParameter(left: string, name: string, v: string)
    requires left == REQUEST_PARAMETERS && v == left + " ->> " + Quoted(name)
    ensures ParseBinding(v) == Some(RequestParameter(name))
  {
    ParametersText();
    ArrowReadsBack(left, name);
    ParameterForm(v, name);
  }

  lemma PrintedParameterParses(name: string)
    ensures ParseBinding(Print(RequestParameter(name))) == Some(RequestParameter(name))
  {
    PrintedParameter(REQUEST_PARAMETERS, name, Print(RequestParameter(name)));
  }

  lemma ArrayForm(v: string, name: string)
    requires |v| > 17 && v[0] == 'r' && v[8] == 'p' && v[17] == '_' && Trim(v) == v && CallArgument(v, PARAMETER_ARRAY) == Some(name)
    ensures ParseBinding(v) == Some(RequestParameterArray(name))
  {
    ParameterFormsOnly(v);
    OtherArrow(v, REQUEST_PARAMETERS, 17);
  }

  lemma ArrayText()
    ensures |PARAMETER_ARRAY| == 24 && PARAMETER_ARRAY[0] == 'r' && PARAMETER_ARRAY[8] == 'p' && PARAMETER_ARRAY[17] == '_'
    ensures Lowered(PARAMETER_ARRAY) == PARAMETER_ARRAY
  {
  }

  lemma PrintedArray(prefix: string, name: string, v: string)
    requires prefix == PARAMETER_ARRAY && v == prefix + Quoted(name) + ")"
    ensures ParseBinding(v) == Some(RequestParameterArray(name))
  {
    ArrayText();
    CallReadsBack(prefix, name);
    ArrayForm(v, name);
  }

  lemma PrintedArrayParses(name: string)
    ensures ParseBinding(Print(RequestParameterArray(name))) == Some(RequestParameterArray(name))
  {
    PrintedArray(PARAMETER_ARRAY, name, Print(RequestParameterArray(name)));
  }

  /** Parsing a printed binding returns it, for every name, quotes and arrows included. */
  lemma ParseUndoesPrint(b: Binding)
    ensures ParseBinding(Print(b)) == Some(b)
  {
    match b
    case AuthParameter(name) => PrintedCallParses(name);
    case SubscriptionParameter(name) => PrintedSubscriptionParses(name);
    case RequestUserId => PrintedUserIdParses();
    case RequestJwt(claim) => PrintedJwtParses(claim);
    case RequestParameter(name) => PrintedParameterParses(name);
    case RequestParameterArray(name) => PrintedArrayParses(name);
  }

  // ------------------------------------------------------------------
  // A printed binding survives splitting
  // ------------------------------------------------------------------

  predicate Plain(s: string) {
    forall c | c in s :: c !in {'\'', '"', '(', ')'}
  }

  /** No keyword is met at top level anywhere in the text. */
  predicate Unsplit(keyword: string, st: Scan, text: string)
    decreases |text|
  {
    text == "" || (!(st == NEUTRAL && Matches(keyword, text)) && Unsplit(keyword, Advance(st, text[0]), text[1..]))
  }

  lemma {:induction false} UnsplitIsKept(keyword: string, prev: Option<char>, acc: string, st: Scan, text: string)
    requires IsKeyword(keyword) && Unsplit(keyword, st, text)
    ensures Parts(keyword, prev, acc, st, text) == Kept(acc + text)
    decreases |text|
  {
    if text != "" {
      assert text == [text[0]] + text[1..] && acc + [text[0]] + text[1..] == acc + text;
      OneStep(keyword, prev, acc, st, text[0], text[1..]);
      UnsplitIsKept(keyword, Some(text[0]), acc + [text[0]], Advance(st, text[0]), text[1..]);
    }
  }

  /** Ends neutral and holds no top-level keyword. */
  predicate Clean(keyword: string, st: Scan, text: string) {
    Unsplit(keyword, st, text) && Final(st, text) == NEUTRAL
  }

  lemma CleanOther(keyword: string, st: Scan, c: char, rest: string)
    requires IsKeyword(keyword) && !IsLetter(c) && Clean(keyword, Advance(st, c), rest)
    ensures Clean(keyword, st, [c] + rest)
  {
    assert ([c] + rest)[1..] == rest;
    assert keyword[0] in keyword;
  }

  lemma NoMatchWithout(keyword: string, k: nat, s: string, rest: string)
    requires IsKeyword(keyword) && k < |keyword| && (forall c | c in s :: Lower(c) != Lower(keyword[k]))
    requires rest == "" || !IsLetter(rest[0])
    ensures !Matches(keyword, s + rest)
  {
    if |s| >= |keyword| {
      assert (s + rest)[k] == s[k] && s[k] in s;
    } else if rest != "" {
      MatchStaysInside(keyword, s, rest);
    }
  }

  /** Plain text that lacks a letter of the keyword, before something that is not a letter. */
  lemma {:induction false} CleanPlain(keyword: string, k: nat, st: Scan, s: string, rest: string)
    requires IsKeyword(keyword) && k < |keyword| && st.quote.None? && Plain(s)
    requires forall c | c in s :: Lower(c) != Lower(keyword[k])
    requires (rest == "" || !IsLetter(rest[0])) && Clean(keyword, st, rest)
    ensures Clean(keyword, st, s + rest)
  {
    if s == "" {
      assert s + rest == rest;
    } else {
      assert s[0] in s;
      assert forall c | c in s[1..] :: c in s;
      CleanPlain(keyword, k, st, s[1..], rest);
      assert (s + rest)[1..] == s[1..] + rest;
      NoMatchWithout(keyword, k, s, rest);
    }
  }

  lemma {:induction false} CleanEscaped(keyword: string, depth: int, s: string, rest: string)
    requires IsKeyword(keyword) && Clean(keyword, Scan(None, depth), rest)
    ensures Clean(keyword, Scan(Some('\''), depth), Escape(s) + ("'" + rest))
  {
    var st, tail := Scan(Some('\''), depth), "'" + rest;
    if s == "" {
      assert Escape(s) + tail == tail && tail[1..] == rest;
    } else {
      CleanEscaped(keyword, depth, s[1..], rest);
      var more := Escape(s[1..]) + tail;
      if s[0] == '\'' {
        assert Escape(s) + tail == ['\''] + (['\''] + more);
        CleanOther(keyword, Scan(None, depth), '\'', more);
        CleanOther(keyword, st, '\'', ['\''] + more);
      } else {
        assert Escape(s) + tail == [s[0]] + more && ([s[0]] + more)[1..] == more;
      }
    }
  }

  lemma CleanQuoted(keyword: string, depth: int, s: string, rest: string)
    requires IsKeyword(keyword) && Clean(keyword, Scan(None, depth), rest)
    ensures Clean(keyword, Scan(None, depth), Quoted(s) + rest)
  {
    CleanEscaped(keyword, depth, s, rest);
    CleanOther(keyword, Scan(None, depth), '\'', Escape(s) + ("'" + rest));
    assert Quoted(s) + rest == ['\''] + (Escape(s) + ("'" + rest));
  }

  const AND: string := "AND"

  function Call(word: string, inner: string, rest: string): string {
    word + (['('] + (inner + ([')'] + rest)))
  }

  lemma CleanCall(word: string, k: nat, name: string)
    requires k < 3 && Plain(word) && forall c | c in word :: Lower(c) != Lower(AND[k])
    ensures Clean(AND, NEUTRAL, Call(word, Quoted(name), ""))
  {
    CleanOther(AND, Scan(None, 1), ')', "");
    CleanQuoted(AND, 1, name, [')'] + "");
    CleanOther(AND, NEUTRAL, '(', Quoted(name) + ([')'] + ""));
    CleanPlain(AND, k, NEUTRAL, word, ['('] + (Quoted(name) + ([')'] + "")));
  }

  lemma CleanUnit(word: string, k: nat, rest: string)
    requires k < 3 && Plain(word) && (forall c | c in word :: Lower(c) != Lower(AND[k])) && Clean(AND, NEUTRAL, rest)
    ensures Clean(AND, NEUTRAL, Call(word, "", rest))
  {
    CleanOther(AND, Scan(None, 1), ')', rest);
    assert "" + ([')'] + rest) == [')'] + rest;
    CleanOther(AND, NEUTRAL, '(', [')'] + rest);
    CleanPlain(AND, k, NEUTRAL, word, ['('] + ([')'] + rest));
  }

  lemma CleanArrow(word: string, k: nat, arrow: string, name: string)
    requires k < 3 && Plain(word) && (forall c | c in word :: Lower(c) != Lower(AND[k]))
    requires Plain(arrow) && forall c | c in arrow :: !IsLetter(c)
    requires arrow != ""
    ensures Clean(AND, NEUTRAL, Call(word, "", arrow + Quoted(name)))
  {
    CleanQuoted(AND, 0, name, "");
    assert Quoted(name) + "" == Quoted(name);
    CleanPlain(AND, 2, NEUTRAL, arrow, Quoted(name));
    CleanUnit(word, k, arrow + Quoted(name));
  }

  lemma CallText(prefix: string, word: string, name: string)
    requires prefix == word + ['(']
    ensures prefix + Quoted(name) + ")" == Call(word, Quoted(name), "")
  {
  }

  lemma ArrowText(left: string, word: string, arrow: string, name: string)
    requires left == word + ['('] + [')']
    ensures left + arrow + Quoted(name) == Call(word, "", arrow + Quoted(name))
  {
  }

  lemma PrintedCallIsClean(prefix: string, word: string, name: string)
    requires prefix == word + ['('] && Plain(word) && forall c | c in word :: Lower(c) != 'd'
    ensures Clean(AND, NEUTRAL, prefix + Quoted(name) + ")")
  {
    CallText(prefix, word, name);
    CleanCall(word, 2, name);
  }

  lemma PrintedArrowIsClean(left: string, word: string, name: string)
    requires left == word + ['('] + [')'] && Plain(word) && forall c | c in word :: Lower(c) != 'd'
    ensures Clean(AND, NEUTRAL, left + " ->> " + Quoted(name))
  {
    ArrowText(left, word, " ->> ", name);
    CleanArrow(word, 2, " ->> ", name);
  }

  lemma PrintedUserIdIsClean()
    ensures Clean(AND, NEUTRAL, REQUEST_USER_ID)
  {
    CleanUnit("request.user_id", 1, "");
    assert REQUEST_USER_ID == Call("request.user_id", "", "");
  }

  lemma PrintedAuthIsClean(name: string)
    ensures Clean(AND, NEUTRAL, Print(AuthParameter(name)))
  {
    PrintedCallIsClean(AUTH_PARAMETER, "auth.parameter", name);
  }

  lemma PrintedSubscriptionIsClean(name: string)
    ensures Clean(AND, NEUTRAL, Print(SubscriptionParameter(name)))
  {
    PrintedCallIsClean(SUBSCRIPTION_PARAMETER, "subscription.parameter", name);
  }

  lemma PrintedArrayIsClean(name: string)
    ensures Clean(AND, NEUTRAL, Print(RequestParameterArray(name)))
  {
    PrintedCallIsClean(PARAMETER_ARRAY, "request.parameter_array", name);
  }

  lemma PrintedArrowsAreClean(name: string)
    ensures Clean(AND, NEUTRAL, Print(RequestJwt(name)))
    ensures Clean(AND, NEUTRAL, Print(RequestParameter(name)))
  {
    PrintedArrowIsClean(REQUEST_JWT, "request.jwt", name);
    PrintedArrowIsClean(REQUEST_PARAMETERS, "request.parameters", name);
  }

  lemma PrintedIsClean(b: Binding)
    ensures Clean(AND, NEUTRAL, Print(b))
  {
    match b
    case RequestUserId => PrintedUserIdIsClean();
    case RequestJwt(name) => PrintedArrowsAreClean(name);
    case RequestParameter(name) => PrintedArrowsAreClean(name);
    case AuthParameter(name) => PrintedAuthIsClean(name);
    case SubscriptionParameter(name) => PrintedSubscriptionIsClean(name);
    case RequestParameterArray(name) => PrintedArrayIsClean(name);
  }

  lemma PrintedIsTrimmed(b: Binding)
    ensures Trim(Print(b)) == Print(b) && Print(b) != ""
  {
  }

  /** A printed binding is a single predicate text: whatever its name holds, it
      ends outside quotes and parentheses and the splitter does not cut it. */
  lemma PrintedIsOnePart(b: Binding)
    ensures Predicate(AND, Print(b))
  {
    PrintedIsClean(b);
    PrintedIsTrimmed(b);
    UnsplitIsKept(AND, None, "", NEUTRAL, Print(b));
    assert "" + Print(b) == Print(b);
  }
}
