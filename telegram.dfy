/** The pure parts of the Telegram bridge (my_agent/telegram_bot.py): the
    token extraction `_extract_token`, which tries the explicit markers, then
    the token pattern, then the first non-empty line; and the `/chat` command,
    which strips the command word, builds the session id `tg_<user id>` and
    picks the reply to send back. Reading the token from the environment or a
    file, the HTTP call to the chat endpoint and sending the reply are I/O and
    are not part of this model. */
module TelegramBridge {
  import opened Wrappers
  import opened Text

  /** The explicit markers, in the order they are tried. */
  const Markers: seq<string> := ["TELEGRAM_BOT_TOKEN=", "BOT_TOKEN=", "TOKEN="]
  const UsageReply := "Используй: /chat <текст для агента>"
  const NoResponseReply := "(no response)"
  const UnreachableReply := "Sorry, I could not reach the agent."
  const SessionPrefix := "tg_"

  // -----------------------------------------------------------------------
  // Step 1: the explicit markers
  // -----------------------------------------------------------------------

  /** The text after the first marker of `markers` that occurs in `raw`,
      stripped; `None` when no marker occurs. */
  function MarkerValue(raw: string, markers: seq<string>): Option<string>
    decreases |markers|
  {
    if markers == [] then None
    else if Contains(raw, markers[0]) then Some(Strip(AfterFirst(raw, markers[0])))
    else MarkerValue(raw, markers[1..])
  }

  /** The markers are tried in list order: the first one that occurs decides,
      whatever later markers also occur. */
  lemma {:induction false} MarkerValueFirstHit(raw: string, markers: seq<string>, k: nat)
    requires k < |markers| && Contains(raw, markers[k])
    requires forall j :: 0 <= j < k ==> !Contains(raw, markers[j])
    ensures MarkerValue(raw, markers) == Some(Strip(AfterFirst(raw, markers[k])))
    decreases k
  {
    if k == 0 {
      MarkerValueHead(raw, markers);
    } else {
      var rest := markers[1..];
      forall j | 0 <= j < k - 1 ensures !Contains(raw, rest[j]) {
        assert rest[j] == markers[j + 1];
      }
      assert rest[k - 1] == markers[k];
      MarkerValueSkip(raw, markers);
      MarkerValueFirstHit(raw, rest, k - 1);
    }
  }

  lemma MarkerValueHead(raw: string, markers: seq<string>)
    requires markers != [] && Contains(raw, markers[0])
    ensures MarkerValue(raw, markers) == Some(Strip(AfterFirst(raw, markers[0])))
  {
  }

  lemma MarkerValueSkip(raw: string, markers: seq<string>)
    requires markers != [] && !Contains(raw, markers[0])
    ensures MarkerValue(raw, markers) == MarkerValue(raw, markers[1..])
  {
  }

  /** A marker step gives nothing exactly when no marker occurs. */
  lemma {:induction false} MarkerValueNone(raw: string, markers: seq<string>)
    ensures MarkerValue(raw, markers).None? <==> forall k :: 0 <= k < |markers| ==> !Contains(raw, markers[k])
    decreases |markers|
  {
    if markers != [] {
      MarkerValueNone(raw, markers[1..]);
      assert forall k :: 1 <= k < |markers| ==> markers[k] == markers[1..][k - 1];
    }
  }

  // -----------------------------------------------------------------------
  // Step 2: the token pattern
  // -----------------------------------------------------------------------
  // The pattern is written as a raw string with doubled backslashes, so the
  // regular expression it denotes is: a backslash, the letter b, then the
  // group (a backslash, one or more letters d, a colon, one or more of
  // [A-Za-z0-9_-]). It matches literal text, not a word boundary and digits.

  predicate IsTokenChar(c: char) {
    ('A' <= c <= 'Z') || ('a' <= c <= 'z') || ('0' <= c <= '9') || c == '_' || c == '-'
  }

  /** The length of the run of letters d starting at `i`. */
  function RunOfD(s: string, i: nat): (n: nat)
    requires i <= |s|
    ensures i + n <= |s|
    ensures forall j :: i <= j < i + n ==> s[j] == 'd'
    ensures i + n == |s| || s[i + n] != 'd'
    decreases |s| - i
  {
    if i < |s| && s[i] == 'd' then 1 + RunOfD(s, i + 1) else 0
  }

  /** The length of the run of `[A-Za-z0-9_-]` characters starting at `i`. */
  function RunOfTokenChars(s: string, i: nat): (n: nat)
    requires i <= |s|
    ensures i + n <= |s|
    ensures forall j :: i <= j < i + n ==> IsTokenChar(s[j])
    ensures i + n == |s| || !IsTokenChar(s[i + n])
    decreases |s| - i
  {
    if i < |s| && IsTokenChar(s[i]) then 1 + RunOfTokenChars(s, i + 1) else 0
  }

  /** The group the pattern captures when a match starts at `j`: both runs
      are greedy, and the colon after the d's forces the whole run of d's. */
  function MatchAt(s: string, j: nat): (m: Option<string>)
    requires j <= |s|
    ensures m.Some? ==> && j + 3 <= |s| && s[j..j + 3] == "\\b\\"
                        && |m.value| >= 4 && m.value[0] == '\\' && m.value[1] == 'd'
                        && IsTokenChar(m.value[|m.value| - 1])
                        && OccursAt(s, m.value, j + 2)
  {
    if j + 3 <= |s| && s[j..j + 3] == "\\b\\" then
      var d := RunOfD(s, j + 3);
      var colon := j + 3 + d;
      if d >= 1 && colon < |s| && s[colon] == ':' then
        var t := RunOfTokenChars(s, colon + 1);
        if t >= 1 then
          assert s[j + 2..colon + 1 + t][0] == s[j + 2];
          assert s[j + 2..colon + 1 + t][1] == s[j + 3];
          Some(s[j + 2..colon + 1 + t])
        else None
      else None
    else None
  }

  /** No match starts at a position in [j, i). */
  predicate NoMatchBetween(s: string, j: nat, i: nat)
    requires i <= |s| + 1
  {
    forall k :: j <= k < i ==> MatchAt(s, k).None?
  }

  lemma NoMatchBetweenExtend(s: string, j: nat, i: nat)
    requires j < i <= |s| + 1 && MatchAt(s, j).None? && NoMatchBetween(s, j + 1, i)
    ensures NoMatchBetween(s, j, i)
  {
  }

  /** `re.search`: the group of the leftmost match at or after `j`. */
  function SearchFrom(s: string, j: nat): (m: Option<string>)
    requires j <= |s|
    ensures m.Some? ==> exists i :: j <= i <= |s| && MatchAt(s, i) == m && NoMatchBetween(s, j, i)
    ensures m.None? ==> NoMatchBetween(s, j, |s| + 1)
    decreases |s| - j
  {
    if MatchAt(s, j).Some? then MatchAt(s, j)
    else if j == |s| then None
    else
      var r := SearchFrom(s, j + 1);
      assert r.Some? ==> exists i :: j <= i <= |s| && MatchAt(s, i) == r && NoMatchBetween(s, j, i) by {
        if r.Some? {
          var i :| j + 1 <= i <= |s| && MatchAt(s, i) == r && NoMatchBetween(s, j + 1, i);
          NoMatchBetweenExtend(s, j, i);
        }
      }
      assert r.None? ==> NoMatchBetween(s, j, |s| + 1) by {
        if r.None? {
          NoMatchBetweenExtend(s, j, |s| + 1);
        }
      }
      r
  }

  function TokenPattern(s: string): Option<string> {
    SearchFrom(s, 0)
  }

  /** The shape of a captured group: a backslash, a run of d's, a colon at
      `c` and a non-empty run of token characters after it. */
  predicate GroupShape(m: string) {
    && |m| >= 4 && m[0] == '\\'
    && exists c :: && 2 <= c < |m| - 1 && m[c] == ':'
                   && (forall k :: 1 <= k < c ==> m[k] == 'd')
                   && (forall k :: c < k < |m| ==> IsTokenChar(m[k]))
  }

  /** Whatever the pattern captures has the group's shape and occurs in the
      text; it ends with a token character, so it has no outer whitespace. */
  lemma TokenPatternShape(s: string)
    requires TokenPattern(s).Some?
    ensures var m := TokenPattern(s).value;
      GroupShape(m) && NoOuterSpace(m) && IsSubstring(m, s)
  {
    var i :| 0 <= i <= |s| && MatchAt(s, i) == TokenPattern(s);
    MatchAtShape(s, i);
  }

  lemma MatchAtShape(s: string, j: nat)
    requires j <= |s| && MatchAt(s, j).Some?
    ensures var m := MatchAt(s, j).value;
      GroupShape(m) && NoOuterSpace(m) && IsSubstring(m, s)
  {
    var m := MatchAt(s, j).value;
    var d := RunOfD(s, j + 3);
    var colon := j + 3 + d;
    var t := RunOfTokenChars(s, colon + 1);
    assert m == s[j + 2..colon + 1 + t];
    var c := d + 1;
    assert m[c] == ':';
    assert forall k :: 1 <= k < c ==> m[k] == s[j + 2 + k];
    assert forall k :: c < k < |m| ==> m[k] == s[j + 2 + k];
    assert OccursAt(s, m, j + 2);
    TokenCharNotSpace(m[|m| - 1]);
  }

  lemma TokenCharNotSpace(c: char)
    requires IsTokenChar(c)
    ensures !IsSpace(c)
  {
  }

  /** Text without a backslash never matches the pattern: a bare bot token
      such as `123456:ABC-def` is not found by this step. */
  lemma TokenPatternNeedsBackslash(s: string)
    requires forall i :: 0 <= i < |s| ==> s[i] != '\\'
    ensures TokenPattern(s).None?
  {
    forall i | 0 <= i <= |s| ensures MatchAt(s, i).None? {
      MatchAtNeedsBackslash(s, i);
    }
  }

  lemma MatchAtNeedsBackslash(s: string, j: nat)
    requires j <= |s| && (j == |s| || s[j] != '\\')
    ensures MatchAt(s, j).None?
  {
    if j + 3 <= |s| {
      assert s[j..j + 3][0] == s[j];
    }
  }

  // -----------------------------------------------------------------------
  // Step 3: the first non-empty line
  // -----------------------------------------------------------------------

  /** The value of a line: the text after its first `=`, stripped, when it
      has one, otherwise the line itself. */
  function LineValue(line: string): string {
    if Contains(line, "=") then Strip(AfterFirst(line, "=")) else line
  }

  /** Every line, stripped. */
  function StrippedLines(lines: seq<string>): seq<string> {
    seq(|lines|, j requires 0 <= j < |lines| => Strip(lines[j]))
  }

  /** The index of the first non-empty entry at or after `i`, if there is
      one. */
  function FirstNonEmpty(stripped: seq<string>, i: nat): (r: Option<nat>)
    requires i <= |stripped|
    ensures r.Some? ==> i <= r.value < |stripped| && stripped[r.value] != ""
    decreases |stripped| - i
  {
    if i == |stripped| then None
    else if stripped[i] == "" then FirstNonEmpty(stripped, i + 1)
    else Some(i)
  }

  /** The entry found is the first non-empty one: all before it are empty. */
  lemma {:induction false} FirstNonEmptySkips(stripped: seq<string>, i: nat)
    requires i <= |stripped|
    ensures FirstNonEmpty(stripped, i).Some? ==>
      forall j :: i <= j < FirstNonEmpty(stripped, i).value ==> stripped[j] == ""
    ensures FirstNonEmpty(stripped, i).None? ==>
      forall j :: i <= j < |stripped| ==> stripped[j] == ""
    decreases |stripped| - i
  {
    if i < |stripped| && stripped[i] == "" {
      FirstNonEmptySkips(stripped, i + 1);
    }
  }

  /** Conversely, a non-empty entry preceded only by empty ones is found. */
  lemma {:induction false} FirstNonEmptyAt(stripped: seq<string>, i: nat, k: nat)
    requires i <= k < |stripped| && stripped[k] != ""
    requires forall j :: i <= j < k ==> stripped[j] == ""
    ensures FirstNonEmpty(stripped, i) == Some(k)
    decreases k - i
  {
    if i < k {
      FirstNonEmptyAt(stripped, i + 1, k);
    }
  }

  /** With only empty entries nothing is found. */
  lemma {:induction false} FirstNonEmptyNone(stripped: seq<string>, i: nat)
    requires i <= |stripped|
    requires forall j :: i <= j < |stripped| ==> stripped[j] == ""
    ensures FirstNonEmpty(stripped, i) == None
    decreases |stripped| - i
  {
    if i < |stripped| {
      FirstNonEmptyNone(stripped, i + 1);
    }
  }

  /** The value of the first line that is non-empty once stripped; "" when
      there is none. */
  function FirstLineValue(lines: seq<string>): string {
    var stripped := StrippedLines(lines);
    match FirstNonEmpty(stripped, 0)
    case Some(k) => LineValue(stripped[k])
    case None => ""
  }

  /** The first line that is non-empty once stripped decides; all earlier
      lines are skipped. */
  lemma FirstLineValueAt(lines: seq<string>, k: nat)
    requires k < |lines| && Strip(lines[k]) != ""
    requires forall j :: 0 <= j < k ==> Strip(lines[j]) == ""
    ensures FirstLineValue(lines) == LineValue(Strip(lines[k]))
  {
    var stripped := StrippedLines(lines);
    assert forall j :: 0 <= j < k ==> stripped[j] == "";
    FirstNonEmptyAt(stripped, 0, k);
  }

  /** With no non-empty line the step gives "". */
  lemma FirstLineValueBlank(lines: seq<string>)
    requires forall j :: 0 <= j < |lines| ==> Strip(lines[j]) == ""
    ensures FirstLineValue(lines) == ""
  {
    var stripped := StrippedLines(lines);
    assert forall j :: 0 <= j < |lines| ==> stripped[j] == "";
    FirstNonEmptyNone(stripped, 0);
  }

  lemma FirstLineValueNoOuterSpace(lines: seq<string>)
    ensures NoOuterSpace(FirstLineValue(lines))
  {
    var stripped := StrippedLines(lines);
    match FirstNonEmpty(stripped, 0)
    case Some(k) =>
      assert stripped[k] == Strip(lines[k]);
    case None =>
  }

  // -----------------------------------------------------------------------
  // The whole extraction
  // -----------------------------------------------------------------------

  /** `_extract_token`: "" for empty input; otherwise, on the stripped input,
      the first marker that occurs, else the token pattern, else the first
      non-empty line. */
  function ExtractToken(raw: string): string {
    if raw == "" then ""
    else
      var s := Strip(raw);
      match MarkerValue(s, Markers)
      case Some(v) => v
      case None =>
        match TokenPattern(s)
        case Some(t) => t
        case None => FirstLineValue(SplitLines(s))
  }

  lemma {:induction false} MarkerValueNoOuterSpace(raw: string, markers: seq<string>)
    ensures MarkerValue(raw, markers).Some? ==> NoOuterSpace(MarkerValue(raw, markers).value)
    decreases |markers|
  {
    if markers != [] && !Contains(raw, markers[0]) {
      MarkerValueNoOuterSpace(raw, markers[1..]);
    }
  }

  /** No branch returns a token with leading or trailing whitespace. */
  lemma ExtractTokenNoOuterSpace(raw: string)
    ensures NoOuterSpace(ExtractToken(raw))
  {
    if raw != "" {
      var s := Strip(raw);
      MarkerValueNoOuterSpace(s, Markers);
      if TokenPattern(s).Some? {
        TokenPatternShape(s);
      }
      FirstLineValueNoOuterSpace(SplitLines(s));
    }
  }

  lemma NothingInEmpty(t: string)
    requires t != ""
    ensures !Contains("", t)
  {
  }

  /** Empty and whitespace-only input give "". */
  lemma ExtractTokenBlank(raw: string)
    requires AllSpace(raw)
    ensures ExtractToken(raw) == ""
  {
    if raw != "" {
      StripEmptyIff(raw);
      NothingInEmpty(Markers[0]);
      NothingInEmpty(Markers[1]);
      NothingInEmpty(Markers[2]);
      MarkerValueNone("", Markers);
    }
  }

  lemma NonEmptyWhenContains(s: string, t: string)
    requires Contains(s, t) && t != ""
    ensures s != ""
  {
  }

  /** The markers are tried in order on the stripped input: the first that
      occurs gives the text after its first occurrence, stripped. */
  lemma ExtractTokenMarker(raw: string, k: nat)
    requires k < |Markers| && Contains(Strip(raw), Markers[k])
    requires forall j :: 0 <= j < k ==> !Contains(Strip(raw), Markers[j])
    ensures ExtractToken(raw) == Strip(AfterFirst(Strip(raw), Markers[k]))
  {
    NonEmptyWhenContains(Strip(raw), Markers[k]);
    MarkerValueFirstHit(Strip(raw), Markers, k);
  }

  /** Input holding `TELEGRAM_BOT_TOKEN=` is read through that marker, even
      though it also holds `BOT_TOKEN=` and `TOKEN=`. */
  lemma ExtractTokenFullMarker(raw: string)
    requires Contains(Strip(raw), "TELEGRAM_BOT_TOKEN=")
    ensures ExtractToken(raw) == Strip(AfterFirst(Strip(raw), "TELEGRAM_BOT_TOKEN="))
  {
    ExtractTokenMarker(raw, 0);
  }

  /** When no marker occurs and the pattern does not match, the first
      non-empty stripped line decides: its text after the first `=`,
      stripped, or the line itself. */
  lemma ExtractTokenFallback(raw: string, k: nat)
    requires forall j :: 0 <= j < |Markers| ==> !Contains(Strip(raw), Markers[j])
    requires TokenPattern(Strip(raw)).None?
    requires var lines := SplitLines(Strip(raw));
      && k < |lines| && Strip(lines[k]) != ""
      && forall j :: 0 <= j < k ==> Strip(lines[j]) == ""
    ensures var line := Strip(SplitLines(Strip(raw))[k]);
      ExtractToken(raw) == if Contains(line, "=") then Strip(AfterFirst(line, "=")) else line
  {
    MarkerValueNone(Strip(raw), Markers);
    FirstLineValueAt(SplitLines(Strip(raw)), k);
    assert raw != "";
  }

  lemma OccursAtStart(s: string, t: string)
    requires StartsWith(s, t)
    ensures Find(s, t) == Some(0)
  {
    assert OccursAt(s, t, 0);
  }

  /** A line `TELEGRAM_BOT_TOKEN=<token>` gives back the token, for any
      token without outer whitespace. */
  lemma EnvLineRoundTrip(token: string)
    requires token != "" && NoOuterSpace(token)
    ensures ExtractToken("TELEGRAM_BOT_TOKEN=" + token) == token
  {
    var raw := "TELEGRAM_BOT_TOKEN=" + token;
    assert NoOuterSpace(raw) by {
      assert raw[|raw| - 1] == token[|token| - 1];
    }
    StripFixed(raw);
    assert StartsWith(raw, Markers[0]);
    OccursAtStart(raw, Markers[0]);
    ExtractTokenFullMarker(raw);
    assert raw[|Markers[0]|..] == token;
    StripFixed(token);
  }

  lemma NotContainsWithout(s: string, t: string, c: char)
    requires forall i :: 0 <= i < |s| ==> s[i] != c
    requires exists i :: 0 <= i < |t| && t[i] == c
    ensures !Contains(s, t)
  {
    var i :| 0 <= i < |t| && t[i] == c;
    forall j: nat ensures !OccursAt(s, t, j) {
      if j + |t| <= |s| {
        assert s[j..j + |t|][i] == s[j + i];
      }
    }
  }

  lemma {:induction false} NoBreakOneLine(s: string)
    requires s != "" && forall i :: 0 <= i < |s| ==> !IsLineBreak(s[i])
    ensures SplitLines(s) == [s]
  {
    assert FirstBreak(s, 0) == |s|;
  }

  /** No marker holding a character occurs in text without it. */
  lemma NoMarkerWithout(s: string, markers: seq<string>, c: char)
    requires forall i :: 0 <= i < |s| ==> s[i] != c
    requires forall k :: 0 <= k < |markers| ==> c in markers[k]
    ensures MarkerValue(s, markers).None?
  {
    forall k | 0 <= k < |markers| ensures !Contains(s, markers[k]) {
      NotContainsWithout(s, markers[k], c);
    }
    MarkerValueNone(s, markers);
  }

  lemma MarkersHoldEquals()
    ensures forall k :: 0 <= k < |Markers| ==> '=' in Markers[k]
  {
    assert Markers[0][18] == '=';
    assert Markers[1][9] == '=';
    assert Markers[2][5] == '=';
  }

  /** A bare token on one line (no `=`, no backslash, no line break, no outer
      whitespace) is returned as it is. */
  lemma BareTokenRoundTrip(token: string)
    requires token != "" && NoOuterSpace(token)
    requires forall i :: 0 <= i < |token| ==> token[i] != '=' && token[i] != '\\' && !IsLineBreak(token[i])
    ensures ExtractToken(token) == token
  {
    StripFixed(token);
    MarkersHoldEquals();
    NoMarkerWithout(token, Markers, '=');
    TokenPatternNeedsBackslash(token);
    NoBreakOneLine(token);
    assert "="[0] == '=';
    NotContainsWithout(token, "=", '=');
    assert FirstLineValue([token]) == LineValue(token);
  }

  // -----------------------------------------------------------------------
  // The /chat command
  // -----------------------------------------------------------------------

  /** What the handler does with an update. */
  datatype ChatAction =
    | Ignore                                      // the update carries no message
    | ReplyUsage                                  // the prompt is empty: reply with the usage line
    | Forward(prompt: string, sessionId: string)  // send the prompt to the chat endpoint

  /** How the call to the chat endpoint ended: it answered with a JSON body
      that may or may not hold a `response` field, or it raised. */
  datatype ApiOutcome = Answered(response: Option<string>) | Unreachable

  /** `f"tg_{update.effective_user.id}"`. */
  function SessionIdFor(userId: int): string {
    SessionPrefix + IntToString(userId)
  }

  /** `text.partition(" ")[2].strip()`. */
  function Prompt(text: string): string {
    Strip(AfterFirst(text, " "))
  }

  /** `chat_command` up to the forwarding: `message` is the update's message
      (absent or present) and its text (absent or present). */
  function ChatCommand(message: Option<Option<string>>, userId: int): ChatAction {
    if message.None? then Ignore
    else
      var text := message.value.GetOr("");
      var prompt := Prompt(text);
      if prompt == "" then ReplyUsage else Forward(prompt, SessionIdFor(userId))
  }

  /** The text sent back to the chat after the forwarding. */
  function ReplyFor(outcome: ApiOutcome): string {
    match outcome
    case Answered(Some(r)) => r
    case Answered(None) => NoResponseReply
    case Unreachable => UnreachableReply
  }

  /** A message is forwarded exactly when the text after the first space is
      non-empty once stripped; the prompt is that text, without outer
      whitespace, and the session id is `tg_` and the user id. */
  lemma ChatCommandForwards(text: Option<string>, userId: int)
    ensures var action := ChatCommand(Some(text), userId);
            var prompt := Prompt(text.GetOr(""));
      && (action.Forward? <==> prompt != "")
      && (action.ReplyUsage? <==> prompt == "")
      && (action.Forward? ==> action.prompt == prompt && NoOuterSpace(action.prompt)
                              && action.sessionId == "tg_" + IntToString(userId))
  {
  }

  /** The command word alone, or with only whitespace after it, gets the
      usage reply and nothing is forwarded. */
  lemma ChatCommandAlone(text: string, userId: int)
    requires forall i :: 0 <= i < |text| ==> text[i] != ' ' || AllSpace(text[i..])
    ensures ChatCommand(Some(Some(text)), userId) == ReplyUsage
  {
    var after := AfterFirst(text, " ");
    if Contains(text, " ") {
      var j := Find(text, " ").value;
      assert text[j..j + 1] == " ";
      assert text[j] == ' ';
      assert AllSpace(text[j..]);
      assert after == text[j + 1..];
      assert AllSpace(after) by {
        forall i | 0 <= i < |after| ensures IsSpace(after[i]) {
          assert after[i] == text[j..][i + 1];
        }
      }
    }
    StripEmptyIff(after);
  }

  /** The user id can be read back from the session id, so different users
      get different sessions. */
  lemma SessionIdRoundTrip(userId: int)
    ensures StartsWith(SessionIdFor(userId), "tg_")
    ensures ParseInt(SessionIdFor(userId)[3..]) == userId
  {
    assert SessionIdFor(userId)[3..] == IntToString(userId);
    ParseIntToString(userId);
  }

  lemma SessionIdInjective(a: int, b: int)
    requires SessionIdFor(a) == SessionIdFor(b)
    ensures a == b
  {
    SessionIdRoundTrip(a);
    SessionIdRoundTrip(b);
  }

  /** The endpoint's reply is passed on as it is; a body without `response`
      and a failed call each have their fixed reply. */
  lemma ReplyForCases(outcome: ApiOutcome)
    ensures outcome.Answered? && outcome.response.Some? ==> ReplyFor(outcome) == outcome.response.value
    ensures outcome == Answered(None) ==> ReplyFor(outcome) == "(no response)"
    ensures outcome.Unreachable? ==> ReplyFor(outcome) == "Sorry, I could not reach the agent."
  {
  }
}
