/** End-to-end uses of the handlers on a fresh store, derived from the
    contracts of AlertStore and Api alone. */
module Scenarios {
  import opened Wrappers
  import opened AlertStore
  import opened Api

  /** The bank fixture is answered with the canned reply and leaves the store empty. */
  method BankFixtureScenario(m: Model, now: Timestamp) returns (r: Result<TextResult, Error>, stored: seq<Alert>)
    requires ProbaFits(Some(m), BankFixture)
    ensures r == Success(TextResult(true, 0.99, BankFixtureReason))
    ensures stored == []
  {
    var g := new Guardian();
    r := AnalyzeText(g, Some(m), BankFixture, now);
    stored := g.GetAlerts();
  }

  /** The grandparent fixture is answered with the canned reply and records one call alert. */
  method GrandparentFixtureScenario(m: Model, draw: real, now: Timestamp)
    returns (r: Result<AudioResult, Error>, stored: seq<Alert>)
    requires ProbaFits(Some(m), GrandparentFixture)
    requires 0.0 <= draw < 1.0
    ensures r == Success(AudioResult(true, true, 0.98, 0.95, [FixtureScamReason, FixtureVoiceReason]))
    ensures stored == [Alert(1, now, Call, GrandparentFixture, FixtureAlertReason, High, New)]
  {
    var g := new Guardian();
    r := AnalyzeAudio(g, Some(m), GrandparentFixture, draw, now);
    stored := g.GetAlerts();
  }

  /** A classifier that gives "spam" probability 0.1 makes the text safe and records nothing. */
  method BenignTextScenario(text: string, now: Timestamp) returns (r: Result<TextResult, Error>, stored: seq<Alert>)
    requires text != BankFixture
    ensures r == Success(TextResult(false, 0.1, SafeReason))
    ensures stored == []
  {
    var m := Model(["ham", "spam"], _ => [0.9, 0.1]);
    assert IndexOf(m.classes, SpamLabel) == Some(1);
    var g := new Guardian();
    r := AnalyzeText(g, Some(m), text, now);
    stored := g.GetAlerts();
  }

  /** Ids count the alerts stored, so they start again at 1 after a clear. */
  method IdsRestartAfterClear(now: Timestamp) returns (ids: seq<int>)
    ensures ids == [1, 2, 3, 1]
  {
    var g := new Guardian();
    var a1 := g.AddAlert(Text, "a", SpamReason, now);
    var a2 := g.AddAlert(Text, "b", SpamReason, now);
    var a3 := g.AddAlert(Call, "c", ScamReason, now);
    g.ClearAlerts();
    g.ClearAlerts();
    var a4 := g.AddAlert(Call, "d", ScamReason, now);
    ids := [a1.id, a2.id, a3.id, a4.id];
  }

  /** Alerts created at times 1 < 2 < 3 are listed in the order 3, 2, 1. */
  method ListingScenario() returns (first: Alert, second: Alert, third: Alert, listed: seq<Alert>)
    ensures listed == [third, second, first]
    ensures first.id == 1 && second.id == 2 && third.id == 3
  {
    var g := new Guardian();
    first := g.AddAlert(Text, "a", SpamReason, 1);
    second := g.AddAlert(Text, "b", SpamReason, 2);
    third := g.AddAlert(Call, "c", ScamReason, 3);
    var created := g.alerts;
    assert created == [first, second, third];
    ChronologicalListedReversed(created);
    listed := g.GetAlerts();
    assert listed == Reversed(created);
    assert |listed| == 3 && listed[0] == third && listed[1] == second && listed[2] == first;
  }
}
