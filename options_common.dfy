/** What the two options pages (src/pages/options/Options.tsx and
    options.js) share: their five sections, the messages they show, the
    feedback form's rules (the length bounds and the email pattern
    `^[^\s@]+@[^\s@]+\.[^\s@]+$`), and the colour of the character counter. */
module OptionsCommon {
  import opened Common
  import opened JsString

  /** The sections of the page, each with its navigation button. */
  datatype Section = General | Api | TtsSection | Help | Support

  /** The state of the feedback form's status line. */
  datatype StatusKind = Idle | Loading | Success | Failure
  datatype Status = Status(kind: StatusKind, message: string)

  /** What the form posts: the message, and the email only when there is
      one. */
  datatype FeedbackPost = FeedbackPost(message: string, email: Option<string>)

  /** The messages of the settings panels and the voice test. */
  const ApiKeyRequired: string := "Please enter your Gemini API key"
  const SaveApiFailed: string := "Error saving API settings. Please try again."
  const SaveGeneralFailed: string := "Error saving general settings. Please try again."
  const SaveTtsFailed: string := "Error saving TTS settings. Please try again."
  const TestTextRequired: string := "Please enter text to test"
  const TestVoiceFailed: string := "Error playing test voice. Please try again."

  /** The bounds on a feedback message's length. */
  const MinLength: nat := 20
  const MaxLength: nat := 500

  /** The status messages of the form. */
  const TooShort: string := "Please provide at least 20 characters of feedback."
  const TooLong: string := "Feedback is too long. Please keep it under 500 characters."
  const BadEmail: string := "Please enter a valid email address."
  const Sending: string := "Sending feedback..."
  const Thanks: string := "Thank you for your feedback! We'll review it shortly."
  const SendFailed: string := "Failed to send feedback. Please try again or contact us directly."

  /** A character the pattern's `[^\s@]` accepts. */
  predicate EmailChar(c: char)
  {
    !IsSpace(c) && c != '@'
  }

  /** Every character is one `[^\s@]` accepts. */
  predicate EmailChars(s: string)
  {
    forall j :: 0 <= j < |s| ==> EmailChar(s[j])
  }

  /** The email pattern: one '@' after a non-empty local part, and a '.'
      in what follows with something on both sides of it, with no
      whitespace and no other '@' anywhere. */
  predicate ValidEmail(e: string)
  {
    exists i, k :: 0 < i && i + 1 < k < |e| - 1 && e[i] == '@' && e[k] == '.'
                   && EmailChars(e[..i]) && EmailChars(e[i + 1..])
  }

  /** A slice of a string the character class accepts is accepted too. */
  lemma EmailCharsSlice(s: string, lo: nat, hi: nat)
    requires EmailChars(s) && lo <= hi <= |s|
    ensures EmailChars(s[lo..hi])
  {
    forall j | 0 <= j < hi - lo ensures EmailChar(s[lo..hi][j]) {
      assert s[lo..hi][j] == s[lo + j];
    }
  }

  /** A string cut around two positions and glued back with the two
      characters found there. */
  lemma CutAround(e: string, i: nat, k: nat)
    requires i < k < |e| && e[i] == '@' && e[k] == '.'
    ensures e == e[..i] + "@" + e[i + 1..k] + "." + e[k + 1..]
  {
    assert e[i..i + 1] == "@" && e[k..k + 1] == ".";
    assert e == e[..i] + e[i..i + 1] + e[i + 1..k] + e[k..k + 1] + e[k + 1..];
  }

  /** A valid address is a local part, '@', a domain, '.' and a final
      label, each non-empty and free of whitespace and '@'. */
  lemma ValidEmailParts(e: string) returns (local: string, domain: string, tld: string)
    requires ValidEmail(e)
    ensures e == local + "@" + domain + "." + tld
    ensures local != [] && domain != [] && tld != []
    ensures EmailChars(local) && EmailChars(domain) && EmailChars(tld)
  {
    var i, k :| 0 < i && i + 1 < k < |e| - 1 && e[i] == '@' && e[k] == '.'
                && EmailChars(e[..i]) && EmailChars(e[i + 1..]);
    local, domain, tld := e[..i], e[i + 1..k], e[k + 1..];
    CutAround(e, i, k);
    EmailCharsSlice(e[i + 1..], 0, k - i - 1);
    EmailCharsSlice(e[i + 1..], k - i, |e| - i - 1);
    assert e[i + 1..][0..k - i - 1] == domain;
    assert e[i + 1..][k - i..|e| - i - 1] == tld;
  }

  /** Conversely, such parts always make a valid address. */
  lemma ValidEmailFromParts(local: string, domain: string, tld: string)
    requires local != [] && domain != [] && tld != []
    requires EmailChars(local) && EmailChars(domain) && EmailChars(tld)
    ensures ValidEmail(local + "@" + domain + "." + tld)
  {
    var e := local + "@" + domain + "." + tld;
    var i, k := |local|, |local| + 1 + |domain|;
    assert e[..i] == local;
    assert e[i] == '@' && e[k] == '.';
    assert e[i + 1..] == domain + "." + tld;
    assert EmailChar('.');
    assert EmailChars(domain + "." + tld) by {
      var rest := domain + "." + tld;
      forall j | 0 <= j < |rest| ensures EmailChar(rest[j]) {
        if j < |domain| {
          assert rest[j] == domain[j];
        } else if j > |domain| {
          assert rest[j] == tld[j - |domain| - 1];
        }
      }
    }
  }

  /** Any '@' of a valid address is the one that splits it at `i`. */
  lemma OnlyAt(e: string, i: nat, a: nat)
    requires 0 < i < |e| && e[i] == '@'
    requires EmailChars(e[..i]) && EmailChars(e[i + 1..])
    requires a < |e| && e[a] == '@'
    ensures a == i
  {
    assert forall j :: 0 <= j < i ==> e[j] == e[..i][j];
    assert forall j :: i < j < |e| ==> e[j] == e[i + 1..][j - i - 1];
  }

  /** A valid address holds exactly one '@'. */
  lemma ValidEmailOneAt(e: string, a: nat, b: nat)
    requires ValidEmail(e)
    requires a < |e| && b < |e| && e[a] == '@' && e[b] == '@'
    ensures a == b
  {
    var i, k :| 0 < i && i + 1 < k < |e| - 1 && e[i] == '@' && e[k] == '.'
                && EmailChars(e[..i]) && EmailChars(e[i + 1..]);
    OnlyAt(e, i, a);
    OnlyAt(e, i, b);
  }

  /** The validation before any network call: a message shorter than
      twenty or longer than five hundred characters, then a non-empty email
      that does not match the pattern, are refused with their message. */
  function FeedbackError(message: string, email: string): (err: Option<string>)
    ensures err.None? <==> MinLength <= |message| <= MaxLength && (email == "" || ValidEmail(email))
    ensures |message| < MinLength ==> err == Some(TooShort)
    ensures MinLength <= |message| && |message| > MaxLength ==> err == Some(TooLong)
    ensures MinLength <= |message| <= MaxLength && email != "" && !ValidEmail(email) ==> err == Some(BadEmail)
  {
    if |message| < MinLength then Some(TooShort)
    else if |message| > MaxLength then Some(TooLong)
    else if email != "" && !ValidEmail(email) then Some(BadEmail)
    else None
  }

  /** What a submit does once the form's text is read: a refusal's status
      and no post, or the loading status and the post, which carries the
      email only when there is one. */
  datatype Submission = Submission(status: Status, post: Option<FeedbackPost>)

  function CheckFeedback(message: string, email: string): (s: Submission)
    ensures s.post.None? <==> FeedbackError(message, email).Some?
    ensures s.post.None? ==> s.status == Status(Failure, FeedbackError(message, email).value)
    ensures s.post.Some? ==>
      s.status == Status(Loading, Sending)
      && s.post.value.message == message
      && (s.post.value.email.Some? <==> email != "")
      && (s.post.value.email.Some? ==> s.post.value.email.value == email)
    ensures s.post.Some? ==> MinLength <= |s.post.value.message| <= MaxLength
    ensures s.post.Some? && s.post.value.email.Some? ==> ValidEmail(s.post.value.email.value)
  {
    var err := FeedbackError(message, email);
    if err.Some? then Submission(Status(Failure, err.value), None)
    else Submission(Status(Loading, Sending), Some(FeedbackPost(message, if email != "" then Some(email) else None)))
  }

  /** The character counter's colour: red past 450 characters, amber (a
      yellow class in the React page) past 400, the neutral colour below. */
  datatype CounterColour = Neutral | Amber | Red

  function CharCountColour(length: nat): (colour: CounterColour)
    ensures colour == Red <==> length > 450
    ensures colour == Amber <==> 400 < length <= 450
    ensures colour == Neutral <==> length <= 400
  {
    if length > 450 then Red
    else if length > 400 then Amber
    else Neutral
  }

  /** The counter's colour only warms up as the message grows. */
  lemma CharCountColourMonotone(a: nat, b: nat)
    requires a <= b
    ensures CharCountColour(a) == Red ==> CharCountColour(b) == Red
    ensures CharCountColour(a) == Amber ==> CharCountColour(b) != Neutral
  {
  }
}
