/** The scoring policy of backend/app.py: the text and audio handlers with
    their HTTP transport stripped away, plus the two alert pass-throughs.
    Each handler's decision is a pure function (TextVerdict, AudioVerdict);
    the handler methods follow the source step by step and are proved to
    return that decision and to record exactly the alert it asks for. */
module Api {
  import opened Wrappers
  import opened AlertStore

  // Fixtures and canned replies
  const BankFixture: string := "URGENT: Your bank account has been compromised. Click here to reset password: http://bit.ly/scam"
  const BankFixtureReason: string := "Known scam pattern detected (Bank Impersonation)."
  const GrandparentFixture: string := "Grandma, I'm in jail! Please send money now! I was in an accident."
  const FixtureScamReason: string := "Emergency Scam Pattern (Grandparent Scam)"
  const FixtureVoiceReason: string := "Artificial Voice Detected"
  const FixtureAlertReason: string := "Emergency Scam Pattern (Grandparent Scam), Artificial Voice Detected"

  // Reasons of the scoring path
  const SpamReason: string := "Suspicious keywords and patterns detected."
  const SafeReason: string := "Message appears safe."
  const ScamReason: string := "Scam content detected in speech."
  const DeepfakeReason: string := "Artificial voice patterns detected (Deepfake)."

  const SpamLabel: string := "spam"
  const SpamThreshold: real := 0.5
  const DeepfakeThreshold: real := 0.8

  /** The loaded classifier: its label list `classes_` and `predict_proba`
      for one input, a distribution listed in the order of `classes_`. */
  datatype Model = Model(classes: seq<string>, predictProba: string -> seq<real>)

  datatype Error =
    | ModelNotLoaded    // `if not model: raise HTTPException(500)`
    | SpamLabelMissing  // `list(classes).index('spam')` raises ValueError

  datatype TextResult = TextResult(isSpam: bool, score: real, reason: string)

  datatype AudioResult = AudioResult(
    isScam: bool,
    isDeepfake: bool,
    transcriptScore: real,
    voiceScore: real,
    reasons: seq<string>)

  /** The arguments of one `add_alert` call the handler makes (severity left at its default). */
  datatype AlertRequest = AlertRequest(kind: AlertType, content: string, reason: string)

  /** What a handler returns and the alert it records, if any. */
  datatype Verdict<R> = Verdict(response: R, alert: Option<AlertRequest>)

  /** The classifier's output for `text` is parallel to its labels. */
  predicate ProbaFits(model: Option<Model>, text: string) {
    model.Some? ==> |model.value.predictProba(text)| == |model.value.classes|
  }

  predicate FirstIndex(xs: seq<string>, x: string, i: int) {
    0 <= i < |xs| && xs[i] == x && forall j :: 0 <= j < i ==> xs[j] != x
  }

  /** `list.index`: the first position of x, or None where Python raises ValueError. */
  function IndexOf(xs: seq<string>, x: string): (r: Option<nat>)
    ensures r.Some? ==> FirstIndex(xs, x, r.value)
    ensures r.None? <==> x !in xs
  {
    if xs == [] then None
    else if xs[0] == x then Some(0)
    else
      assert xs == [xs[0]] + xs[1..];
      match IndexOf(xs[1..], x)
      case None => None
      case Some(i) => Some(i + 1)
  }

  /** `proba[list(classes).index('spam')]`: the probability the classifier gives the spam label. */
  function SpamScore(m: Model, text: string): (r: Result<real, Error>)
    requires |m.predictProba(text)| == |m.classes|
    ensures r.Failure? <==> SpamLabel !in m.classes
    ensures r.Failure? ==> r.error == SpamLabelMissing
    ensures r.Success? ==> exists i :: FirstIndex(m.classes, SpamLabel, i) && r.value == m.predictProba(text)[i]
  {
    match IndexOf(m.classes, SpamLabel)
    case None => Failure(SpamLabelMissing)
    case Some(i) => Success(m.predictProba(text)[i])
  }

  /** `random.uniform(a, b)`, which computes `a + (b - a) * random.random()`;
      the draw of `random.random()` in [0, 1) is an input. */
  function Uniform(a: real, b: real, draw: real): (v: real)
    requires a <= b && 0.0 <= draw < 1.0
    ensures a <= v <= b
    ensures a < b ==> v < b
  {
    var width := b - a;
    MulFraction(width, draw);
    a + width * draw
  }

  lemma MulFraction(c: real, d: real)
    requires 0.0 <= c && 0.0 <= d < 1.0
    ensures 0.0 <= c * d <= c
    ensures 0.0 < c ==> c * d < c
  {
  }

  /** `", ".join(parts)` for any separator. */
  function Join(parts: seq<string>, sep: string): (r: string)
    ensures parts == [] ==> r == []
    ensures |parts| == 1 ==> r == parts[0]
    ensures |parts| == 2 ==> r == parts[0] + sep + parts[1]
  {
    if parts == [] then []
    else if |parts| == 1 then parts[0]
    else parts[0] + sep + Join(parts[1..], sep)
  }

  /** Joining a list grown by one part at the back, as `analyze_audio` grows
      its reason list, adds one separator and that part at the end; with the
      one-part case this fixes Join on every non-empty list. */
  lemma {:induction false} JoinAppend(parts: seq<string>, sep: string, x: string)
    requires parts != []
    ensures Join(parts + [x], sep) == Join(parts, sep) + sep + x
  {
    if |parts| == 1 {
      assert parts + [x] == [parts[0], x];
    } else {
      assert (parts + [x])[1..] == parts[1..] + [x];
      JoinAppend(parts[1..], sep, x);
    }
  }

  // ---------------------------------------------------------------------
  // analyze_text
  // ---------------------------------------------------------------------

  /** The decision of `analyze_text`. */
  function TextVerdict(model: Option<Model>, text: string): (r: Result<Verdict<TextResult>, Error>)
    requires ProbaFits(model, text)
    ensures r.Failure? ==> r.error == (if model.None? then ModelNotLoaded else SpamLabelMissing)
    ensures r.Success? ==> (r.value.alert.Some? <==> text != BankFixture && r.value.response.isSpam)
    ensures r.Success? && r.value.alert.Some? ==>
              r.value.alert.value == AlertRequest(Text, text, r.value.response.reason)
  {
    if model.None? then Failure(ModelNotLoaded)
    else if text == BankFixture then
      Success(Verdict(TextResult(true, 0.99, BankFixtureReason), None))
    else
      match SpamScore(model.value, text)
      case Failure(e) => Failure(e)
      case Success(p) =>
        var isSpam := p > SpamThreshold;
        var reason := if isSpam then SpamReason else SafeReason;
        Success(Verdict(TextResult(isSpam, p, reason),
                        if isSpam then Some(AlertRequest(Text, text, reason)) else None))
  }

  /** Without a model the text handler fails, even on the fixture, and records nothing. */
  lemma TextNeedsModel(text: string)
    ensures TextVerdict(None, text) == Failure(ModelNotLoaded)
  {
  }

  /** The bank fixture gets the canned reply and, as the handler returns before
      `add_alert`, no alert. */
  lemma TextFixture(m: Model)
    requires ProbaFits(Some(m), BankFixture)
    ensures TextVerdict(Some(m), BankFixture)
         == Success(Verdict(TextResult(true, 0.99, BankFixtureReason), None))
  {
  }

  /** With no spam label, any other text fails before an alert is made. */
  lemma TextNeedsSpamLabel(m: Model, text: string)
    requires ProbaFits(Some(m), text)
    requires text != BankFixture
    ensures TextVerdict(Some(m), text).Failure? <==> SpamLabel !in m.classes
    ensures TextVerdict(Some(m), text).Failure? ==> TextVerdict(Some(m), text).error == SpamLabelMissing
  {
  }

  /** Scoring path: the score is the spam probability, spam means score above
      0.5, the reason follows the decision, and an alert is recorded exactly
      for spam, carrying the text and that reason. */
  lemma TextScoring(m: Model, text: string)
    requires ProbaFits(Some(m), text)
    requires text != BankFixture && SpamLabel in m.classes
    ensures TextVerdict(Some(m), text).Success?
    ensures var v := TextVerdict(Some(m), text).value;
      && (exists i :: FirstIndex(m.classes, SpamLabel, i) && v.response.score == m.predictProba(text)[i])
      && (v.response.isSpam <==> v.response.score > 0.5)
      && v.response.reason == (if v.response.isSpam then SpamReason else SafeReason)
      && (v.alert.Some? <==> v.response.isSpam)
      && (v.alert.Some? ==> v.alert.value == AlertRequest(Text, text, v.response.reason))
  {
  }

  // ---------------------------------------------------------------------
  // analyze_audio
  // ---------------------------------------------------------------------

  /** The simulated voice analysis: high range for scammy content, low otherwise. */
  function VoiceScore(spamScore: real, draw: real): (v: real)
    requires 0.0 <= draw < 1.0
    ensures spamScore > SpamThreshold ==> 0.7 <= v <= 0.99
    ensures spamScore <= SpamThreshold ==> 0.0 <= v <= 0.3
  {
    if spamScore > SpamThreshold then Uniform(0.7, 0.99, draw) else Uniform(0.0, 0.3, draw)
  }

  /** The reasons `analyze_audio` appends: the scam reason first, then the deepfake reason. */
  function AudioReasons(isScam: bool, isDeepfake: bool): (r: seq<string>)
    ensures |r| == (if isScam then 1 else 0) + (if isDeepfake then 1 else 0)
    ensures isScam ==> r[0] == ScamReason
    ensures isDeepfake ==> r[|r| - 1] == DeepfakeReason
    ensures forall k :: 0 <= k < |r| ==> r[k] == ScamReason || r[k] == DeepfakeReason
  {
    (if isScam then [ScamReason] else []) + (if isDeepfake then [DeepfakeReason] else [])
  }

  /** The decision of `analyze_audio`, with the draw of `random.random()` as an input. */
  function AudioVerdict(model: Option<Model>, transcript: string, draw: real): (r: Result<Verdict<AudioResult>, Error>)
    requires ProbaFits(model, transcript)
    requires 0.0 <= draw < 1.0
    ensures r.Failure? ==> r.error == (if model.None? then ModelNotLoaded else SpamLabelMissing)
    ensures r.Success? ==> (r.value.alert.Some? <==> r.value.response.isScam || r.value.response.isDeepfake)
    ensures r.Success? && r.value.alert.Some? ==>
              r.value.alert.value == AlertRequest(Call, transcript, Join(r.value.response.reasons, ", "))
    ensures r.Success? ==> 0.0 <= r.value.response.voiceScore <= 0.99
  {
    if model.None? then Failure(ModelNotLoaded)
    else if transcript == GrandparentFixture then
      assert Join([FixtureScamReason, FixtureVoiceReason], ", ") == FixtureAlertReason;
      Success(Verdict(AudioResult(true, true, 0.98, 0.95, [FixtureScamReason, FixtureVoiceReason]),
                      Some(AlertRequest(Call, transcript, FixtureAlertReason))))
    else
      match SpamScore(model.value, transcript)
      case Failure(e) => Failure(e)
      case Success(p) => Success(ScoredAudio(transcript, p, draw))
  }

  /** The scoring path of `analyze_audio` once the transcript's spam probability p is known. */
  function ScoredAudio(transcript: string, p: real, draw: real): (v: Verdict<AudioResult>)
    requires 0.0 <= draw < 1.0
    ensures v.response.transcriptScore == p
    ensures v.alert.Some? <==> v.response.isScam || v.response.isDeepfake
    ensures v.alert.Some? ==> v.alert.value == AlertRequest(Call, transcript, Join(v.response.reasons, ", "))
    ensures 0.0 <= v.response.voiceScore <= 0.99
  {
    var voice := VoiceScore(p, draw);
    var isDeepfake := voice > DeepfakeThreshold;
    var isScam := p > SpamThreshold;
    var reasons := AudioReasons(isScam, isDeepfake);
    Verdict(AudioResult(isScam, isDeepfake, p, voice, reasons),
            if isScam || isDeepfake then Some(AlertRequest(Call, transcript, Join(reasons, ", "))) else None)
  }

  /** Without a model the audio handler fails, even on the fixture, and records nothing. */
  lemma AudioNeedsModel(transcript: string, draw: real)
    requires 0.0 <= draw < 1.0
    ensures AudioVerdict(None, transcript, draw) == Failure(ModelNotLoaded)
  {
  }

  /** The grandparent fixture: both flags, the fixed scores and reasons, and one
      call alert whose reason is the two replied reasons joined by ", ". */
  lemma AudioFixture(m: Model, draw: real)
    requires ProbaFits(Some(m), GrandparentFixture)
    requires 0.0 <= draw < 1.0
    ensures var r := AudioVerdict(Some(m), GrandparentFixture, draw);
      && r.Success?
      && r.value.response == AudioResult(true, true, 0.98, 0.95, [FixtureScamReason, FixtureVoiceReason])
      && r.value.alert == Some(AlertRequest(Call, GrandparentFixture, Join(r.value.response.reasons, ", ")))
  {
    assert Join([FixtureScamReason, FixtureVoiceReason], ", ") == FixtureAlertReason;
  }

  /** With no spam label, any other transcript fails before an alert is made. */
  lemma AudioNeedsSpamLabel(m: Model, transcript: string, draw: real)
    requires ProbaFits(Some(m), transcript)
    requires 0.0 <= draw < 1.0
    requires transcript != GrandparentFixture
    ensures AudioVerdict(Some(m), transcript, draw).Failure? <==> SpamLabel !in m.classes
    ensures AudioVerdict(Some(m), transcript, draw).Failure? ==>
              AudioVerdict(Some(m), transcript, draw).error == SpamLabelMissing
  {
  }

  /** Scoring path of the audio handler: the transcript score is the spam
      probability, the voice score lies in the range its branch samples from,
      the flags compare against 0.5 and 0.8, and so a deepfake flag on this
      path always comes with the scam flag. */
  lemma AudioScoring(m: Model, transcript: string, draw: real)
    requires ProbaFits(Some(m), transcript)
    requires 0.0 <= draw < 1.0
    requires transcript != GrandparentFixture && SpamLabel in m.classes
    ensures AudioVerdict(Some(m), transcript, draw).Success?
    ensures var a := AudioVerdict(Some(m), transcript, draw).value.response;
      && (exists i :: FirstIndex(m.classes, SpamLabel, i) && a.transcriptScore == m.predictProba(transcript)[i])
      && (a.transcriptScore > 0.5 ==> 0.7 <= a.voiceScore <= 0.99)
      && (a.transcriptScore <= 0.5 ==> 0.0 <= a.voiceScore <= 0.3)
      && (a.isScam <==> a.transcriptScore > 0.5)
      && (a.isDeepfake <==> a.voiceScore > 0.8)
      && (a.isDeepfake ==> a.isScam)
  {
  }

  /** Reasons and alert on the scoring path: one reason per raised flag, scam
      before deepfake, and a call alert with the joined reasons exactly when a
      flag is raised. */
  lemma AudioReasonsAndAlert(m: Model, transcript: string, draw: real)
    requires ProbaFits(Some(m), transcript)
    requires 0.0 <= draw < 1.0
    requires transcript != GrandparentFixture && SpamLabel in m.classes
    ensures var v := AudioVerdict(Some(m), transcript, draw).value;
      && v.response.reasons == (if v.response.isScam then [ScamReason] else [])
                             + (if v.response.isDeepfake then [DeepfakeReason] else [])
      && (v.alert.Some? <==> v.response.isScam || v.response.isDeepfake)
      && (v.alert.Some? ==> v.alert.value == AlertRequest(Call, transcript, Join(v.response.reasons, ", ")))
  {
  }

  /** The reason text a scoring-path call alert carries, for each combination of flags. */
  lemma AudioAlertReasonText(isScam: bool, isDeepfake: bool)
    requires isScam || isDeepfake
    ensures Join(AudioReasons(isScam, isDeepfake), ", ")
         == if isScam && isDeepfake then ScamReason + ", " + DeepfakeReason
            else if isScam then ScamReason
            else DeepfakeReason
  {
  }

  // ---------------------------------------------------------------------
  // The handlers
  // ---------------------------------------------------------------------

  function ResponseOf<R>(v: Result<Verdict<R>, Error>): Result<R, Error> {
    match v
    case Success(verdict) => Success(verdict.response)
    case Failure(e) => Failure(e)
  }

  function AlertOf<R>(v: Result<Verdict<R>, Error>): Option<AlertRequest> {
    match v
    case Success(verdict) => verdict.alert
    case Failure(_) => None
  }

  /** The store after the alert a verdict asks for, if any, is added at time `now`. */
  function Logged(s: seq<Alert>, req: Option<AlertRequest>, now: Timestamp): seq<Alert> {
    match req
    case None => s
    case Some(a) => s + [NewAlert(s, a.kind, a.content, a.reason, now, High)]
  }

  /** `analyze_text`; `now` is the time `add_alert` stamps. */
  method AnalyzeText(g: Guardian, model: Option<Model>, text: string, now: Timestamp)
    returns (r: Result<TextResult, Error>)
    requires ProbaFits(model, text)
    modifies g
    ensures r == ResponseOf(TextVerdict(model, text))
    ensures g.alerts == Logged(old(g.alerts), AlertOf(TextVerdict(model, text)), now)
    ensures r.Failure? ==> g.alerts == old(g.alerts)
    ensures old(g.Valid()) ==> g.Valid()
  {
    if model.None? {
      return Failure(ModelNotLoaded);
    }
    if text == BankFixture {
      return Success(TextResult(true, 0.99, BankFixtureReason));
    }
    var proba := model.value.predictProba(text);
    var spamIndex := IndexOf(model.value.classes, SpamLabel);
    if spamIndex.None? {
      return Failure(SpamLabelMissing);
    }
    var spamScore := proba[spamIndex.value];
    var isSpam := spamScore > SpamThreshold;
    r := Success(TextResult(isSpam, spamScore, if isSpam then SpamReason else SafeReason));
    if isSpam {
      var alert := g.AddAlert(Text, text, r.value.reason, now);
    }
  }

  /** `analyze_audio`; `draw` is what `random.random()` returns inside
      `random.uniform`, `now` the time `add_alert` stamps. The unused
      `audio_features` argument is left out. */
  method AnalyzeAudio(g: Guardian, model: Option<Model>, transcript: string, draw: real, now: Timestamp)
    returns (r: Result<AudioResult, Error>)
    requires ProbaFits(model, transcript)
    requires 0.0 <= draw < 1.0
    modifies g
    ensures r == ResponseOf(AudioVerdict(model, transcript, draw))
    ensures g.alerts == Logged(old(g.alerts), AlertOf(AudioVerdict(model, transcript, draw)), now)
    ensures r.Failure? ==> g.alerts == old(g.alerts)
    ensures old(g.Valid()) ==> g.Valid()
  {
    if model.None? {
      return Failure(ModelNotLoaded);
    }
    if transcript == GrandparentFixture {
      var alert := g.AddAlert(Call, transcript, FixtureAlertReason, now);
      return Success(AudioResult(true, true, 0.98, 0.95, [FixtureScamReason, FixtureVoiceReason]));
    }
    var spamIndex := IndexOf(model.value.classes, SpamLabel);
    if spamIndex.None? {
      return Failure(SpamLabelMissing);
    }
    var proba := model.value.predictProba(transcript);
    var spamScore := proba[spamIndex.value];

    var voiceScore := 0.1;
    if spamScore > SpamThreshold {
      voiceScore := Uniform(0.7, 0.99, draw);
    } else {
      voiceScore := Uniform(0.0, 0.3, draw);
    }
    var isDeepfake := voiceScore > DeepfakeThreshold;
    var isScam := spamScore > SpamThreshold;

    var reasons: seq<string> := [];
    if isScam {
      reasons := reasons + [ScamReason];
    }
    if isDeepfake {
      reasons := reasons + [DeepfakeReason];
    }
    if isScam || isDeepfake {
      var alert := g.AddAlert(Call, transcript, Join(reasons, ", "), now);
    }
    assert reasons == AudioReasons(isScam, isDeepfake);
    r := Success(AudioResult(isScam, isDeepfake, spamScore, voiceScore, reasons));
  }

  /** `GET /api/alerts`: the store's newest-first listing; nothing changes. */
  method GetAlerts(g: Guardian) returns (r: seq<Alert>)
    ensures NewestFirst(r) && multiset(r) == multiset(g.alerts)
    ensures forall t :: At(r, t) == At(g.alerts, t)
  {
    r := g.GetAlerts();
  }

  /** `POST /api/alerts/clear`: empties the store and answers "cleared". */
  method ClearAlerts(g: Guardian) returns (status: string)
    modifies g
    ensures g.alerts == [] && g.Valid()
    ensures status == "cleared"
  {
    g.ClearAlerts();
    status := "cleared";
  }
}
