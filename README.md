# Detection and alerting pipeline, modelled in Dafny

This project models the part of the SafeEcho backend that makes decisions
and keeps state:

- **The alert store** (`backend/guardian.py`, class `Guardian`). It holds an
  in-memory list of alert records. `add_alert` numbers a record after the
  alerts already stored, stamps it, marks it `new` and appends it.
  `get_alerts` returns a copy sorted by timestamp, newest first.
  `clear_alerts` empties the list.
- **The scoring policy** (`backend/app.py`, `analyze_text` and
  `analyze_audio`, with HTTP transport removed). It checks that a model is
  loaded, answers two fixture strings with canned replies, looks up the
  `"spam"` label by name, applies the 0.5 and 0.8 thresholds, samples the
  simulated voice score, builds the reason list, and records an alert in
  the store when the decision calls for one. `get_alerts` and
  `clear_alerts` in `app.py` pass straight through to the store.

Files:

- `wrappers.dfy`: `Option` and `Result`.
- `alert_store.dfy` (module `AlertStore`): alert records, the class
  `Guardian` with one `seq<Alert>` field, and the stable newest-first sort
  with its lemmas. The representation invariant `Valid()` says the alert at
  position i has id i + 1. `AddAlert` and `ClearAlerts` preserve it.
- `api.dfy` (module `Api`): two pure decision functions, `TextVerdict` and
  `AudioVerdict`, with lemmas for each property of the policy. Two handler
  methods follow the source statement by statement and take the store as an
  argument. Each is proved to return its verdict's reply and to leave the
  store exactly as the verdict's alert, if any, prescribes.
- `scenarios.dfy` (module `Scenarios`): end-to-end scenarios on a fresh store,
  proved from the contracts alone.

Inputs the source takes from its surroundings are parameters here:

- The loaded classifier is `Option<Model>`. `None` means `model = None`
  after a failed load. A `Model` has the label list `classes_` and
  `predict_proba` as a function from text to a probability list.
  `ProbaFits` requires that list to be parallel to the labels, which is the
  scikit-learn contract.
- The clock read `datetime.now().isoformat()` is the parameter `now`, an
  integer tick. ISO-8601 strings from one local clock compare like the
  instants they name, so sorting on the tick orders the records as the
  string sort does.
- `random.uniform(a, b)` computes `a + (b - a) * random.random()`. The model
  does the same, with the `random.random()` draw as the input `draw` in
  [0, 1). The voice-score ranges are therefore proved, not assumed.

Notes on the code's behaviour:

- The text fixture returns before `add_alert`, so it records no alert. The
  audio fixture does record one.
- The model-loaded check comes first, so without a model even the fixture
  strings fail.
- Ids are `len(alerts) + 1`, so they are reused after a clear: they are
  unique and increasing only between clears.
- A missing `"spam"` label is its own error, `SpamLabelMissing` (an
  unhandled `ValueError` from `list.index` in the source), separate from
  `ModelNotLoaded` (the HTTP 500 raised when no model is loaded). Both
  happen before any alert is recorded.
- Python's `sorted(..., reverse=True)` is stable. Records with equal
  timestamps keep their insertion order, and the model states and proves
  this.

## Model

| member | source | states |
|---|---|---|
| AlertStore.Guardian.constructor | backend/guardian.py:4-5 | a new store is empty and satisfies the id invariant |
| AlertStore.Guardian.AddAlert | backend/guardian.py:9-20 | the returned record has id = number of stored alerts before the call + 1, the given timestamp, type, content, reason and severity (default high), and status new; it is appended as the new last element and every earlier record is unchanged; the id invariant is preserved |
| AlertStore.Guardian.GetAlerts | backend/guardian.py:22-23 | the listing is a permutation of the store, ordered by timestamp non-increasing, and for every timestamp the records carrying it appear in insertion order (stable sort); being a function it leaves the store unchanged |
| AlertStore.Guardian.ClearAlerts | backend/guardian.py:25-26 | afterwards the store is empty whatever it held, so clearing twice equals clearing once and the next AddAlert gets id 1; the id invariant holds |
| AlertStore.WellNumberedIds | backend/guardian.py:11 | in a store satisfying the invariant, ids are strictly increasing in creation order and are exactly 1..N |
| AlertStore.InsertNewestFirst | backend/guardian.py:23 | inserting into a newest-first list keeps it newest-first and adds exactly the one record (multiset) |
| AlertStore.SortNewestFirst | backend/guardian.py:23 | the result is newest-first and a permutation of the input |
| AlertStore.AtMember | backend/guardian.py:23 | a record is in the timestamp-t subsequence iff it is in the list and stamped t |
| AlertStore.InsertKeepsTies | backend/guardian.py:23 | insertion puts the new record ahead of the records with its timestamp and changes no other timestamp's subsequence |
| AlertStore.SortKeepsTies | backend/guardian.py:23 | the sort is stable: for every timestamp, its subsequence is the same before and after |
| AlertStore.NewestFirstUnique | backend/guardian.py:23 | two newest-first lists with the same subsequence for every timestamp are equal |
| AlertStore.StableSortIsUnique | backend/guardian.py:23 | any newest-first arrangement that keeps insertion order among equal timestamps is the listing SortNewestFirst computes, so the listing is fully determined |
| AlertStore.ChronologicalListedReversed | backend/guardian.py:22-23 | alerts created at strictly increasing times t1 < ... < tn are listed as tn, ..., t1 |
| Api.IndexOf | backend/app.py:67 | `list.index`: Some(i) gives the first position holding the label; None exactly when the label is absent (where Python raises) |
| Api.SpamScore | backend/app.py:66-68 | fails with SpamLabelMissing exactly when "spam" is not a label; otherwise returns the probability at the first "spam" position |
| Api.Uniform | backend/app.py:118 | `random.uniform(a, b)` with a draw in [0, 1) lies in [a, b] |
| Api.VoiceScore | backend/app.py:116-120 | the simulated voice score is in [0.7, 0.99] when the spam score exceeds 0.5 and in [0.0, 0.3] otherwise |
| Api.AudioReasons | backend/app.py:130-136 | the reason list holds one entry per raised flag, the scam reason first and the deepfake reason last |
| Api.Join | backend/app.py:139 | `sep.join(parts)`: empty for no parts, the part itself for one, the two parts around sep for two |
| Api.JoinAppend | backend/app.py:139 | joining a list with one more part at the back appends sep and that part to the joined string |
| Api.TextVerdict | backend/app.py:46-83 | the decision of `analyze_text`: a failure is ModelNotLoaded when no model is loaded and SpamLabelMissing otherwise; an alert is requested exactly for a non-fixture text judged spam, and it is ("text", text, the replied reason); its further properties are the lemmas TextNeedsModel, TextFixture, TextNeedsSpamLabel and TextScoring |
| Api.TextNeedsModel | backend/app.py:47-48 | with no model loaded the text handler fails with ModelNotLoaded for every text, the fixture included, and records no alert |
| Api.TextFixture | backend/app.py:52-60 | the bank fixture gets is_spam true, score 0.99 and the bank-impersonation reason, and no alert |
| Api.TextNeedsSpamLabel | backend/app.py:66-68 | for a non-fixture text the handler fails iff "spam" is not a label, and then with SpamLabelMissing |
| Api.TextScoring | backend/app.py:62-81 | non-fixture text: the score is the "spam" probability, is_spam iff score > 0.5, the reason is the spam or the safe string accordingly, and an alert ("text", text, reason) is recorded iff is_spam |
| Api.AudioVerdict | backend/app.py:86-141 | the decision of `analyze_audio`: a failure is ModelNotLoaded when no model is loaded and SpamLabelMissing otherwise; on success a call alert is requested exactly when a flag is raised, carrying the transcript and the replied reasons joined by ", ", and the voice score lies in [0, 0.99]; its further properties are the lemmas AudioNeedsModel, AudioFixture, AudioNeedsSpamLabel, AudioScoring, AudioReasonsAndAlert and AudioAlertReasonText |
| Api.ScoredAudio | backend/app.py:114-139 | the scoring path of `analyze_audio` for spam probability p: the transcript score is p, the voice score lies in [0, 0.99], and a call alert with the joined reasons is requested exactly when a flag is raised |
| Api.AudioNeedsModel | backend/app.py:89-90 | with no model loaded the audio handler fails with ModelNotLoaded for every transcript, the fixture included, and records no alert |
| Api.AudioFixture | backend/app.py:94-105 | the grandparent fixture gets both flags, scores 0.98 and 0.95, the two fixed reasons, and one call alert whose reason is those two reasons joined by ", " |
| Api.AudioNeedsSpamLabel | backend/app.py:107-110 | for a non-fixture transcript the handler fails iff "spam" is not a label, and then with SpamLabelMissing |
| Api.AudioScoring | backend/app.py:107-123 | non-fixture audio: the transcript score is the "spam" probability, the voice score is in the branch's range, is_scam iff score > 0.5, is_deepfake iff voice > 0.8, hence is_deepfake implies is_scam |
| Api.AudioReasonsAndAlert | backend/app.py:125-139 | non-fixture audio: the reasons are the scam reason if is_scam followed by the deepfake reason if is_deepfake, and a call alert with the joined reasons is recorded iff either flag holds |
| Api.AudioAlertReasonText | backend/app.py:133-139 | the call alert's reason text for each combination of raised flags |
| Api.AnalyzeText | backend/app.py:46-83 | the handler returns TextVerdict's reply and the store gains exactly TextVerdict's alert (id = count + 1, severity high, status new) or nothing; a failure leaves the store unchanged; the id invariant is preserved |
| Api.AnalyzeAudio | backend/app.py:86-141 | the handler returns AudioVerdict's reply and the store gains exactly AudioVerdict's alert or nothing; a failure leaves the store unchanged; the id invariant is preserved |
| Api.GetAlerts | backend/app.py:144-145 | the endpoint returns the store's newest-first, stable, permutation listing |
| Api.ClearAlerts | backend/app.py:148-150 | the endpoint empties the store and answers "cleared" |
| Scenarios.BankFixtureScenario | backend/app.py:53-60 | on a fresh store the bank fixture yields the canned reply and the store stays empty |
| Scenarios.GrandparentFixtureScenario | backend/app.py:95-105 | on a fresh store the grandparent fixture yields the canned reply and exactly one call alert with id 1 and the joined reason |
| Scenarios.BenignTextScenario | backend/app.py:72-81 | a classifier giving "spam" probability 0.1 yields is_spam false, score 0.1, "Message appears safe." and no alert |
| Scenarios.IdsRestartAfterClear | backend/guardian.py:11 | three adds get ids 1, 2, 3; after clearing (twice) the next add gets id 1 again |
| Scenarios.ListingScenario | backend/guardian.py:22-23 | alerts created at times 1, 2, 3 are listed third, second, first |

## Left out

- Model loading with `joblib` (backend/app.py:21-28): file I/O of a foreign library. It is replaced by the `Option<Model>` input.
- The classifier itself (`classes_`, `predict_proba`): an external model, taken as an input. `model.predict` (backend/app.py:62) is computed but never used in a decision, so it is omitted.
- FastAPI routing, CORS, static mounting, the pydantic request classes and `print` logging (backend/app.py:10-19, 30-37, 153): transport and logging.
- `get_status` (backend/app.py:41-43): a constant reply with no logic.
- The unused `source` request field, the `audio_features` argument, and the `active_call` and `is_monitoring` fields (backend/guardian.py:6-7): nothing reads them.
- Alert type, severity and status are enumerations here. The source stores them as free strings, but it only ever passes "text"/"call", "high" and "new".
- Floating point: probabilities and scores are `real`. Only the comparisons with 0.5 and 0.8 and the range bounds matter. `Uniform` yields a value below b, while CPython's float rounding can let `random.uniform` reach b itself; the stated range [a, b] covers both.
- The process-wide singleton `guardian_instance` (backend/guardian.py:28) is a `Guardian` object passed to the handlers. The source has no locking, so concurrent requests are not modelled.
- frontend/js/app.js and backend/model_train.py are not part of this model: they are UI code and offline training.
