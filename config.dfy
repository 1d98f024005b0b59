/**
 * The bot's environment configuration (`Config`): the validation of the loaded
 * settings, the comma-separated list parser, the production check and the
 * `'true'` flag parse. Reading the environment itself is not modelled: the
 * values arrive already loaded, an unset variable as `None`.
 */
module Config {
  import opened Wrappers
  import opened Strings

  /** The settings `validate` and `is_production` look at. */
  datatype Settings = Settings(
    botToken: string,
    userId: int,
    postIntervalHours: int,
    replyProbability: real,
    replyDelayMin: int,
    replyDelayMax: int,
    environment: string)

  const TokenRequired := "BOT_TOKEN is required"
  const UserIdRequired := "USER_ID is required and must be a valid Telegram user ID"
  const IntervalTooShort := "POST_INTERVAL_HOURS must be at least 1"
  const ProbabilityOutOfRange := "REPLY_PROBABILITY must be between 0 and 1"
  const DelayInverted := "REPLY_DELAY_MIN cannot be greater than REPLY_DELAY_MAX"

  /** The five checks' messages, in the order `validate` performs the checks. */
  const CheckMessages: seq<string> :=
    [TokenRequired, UserIdRequired, IntervalTooShort, ProbabilityOutOfRange, DelayInverted]

  /** Position of a message among the checks; 5 for any other string. */
  function Rank(m: string): nat {
    if m == TokenRequired then 0
    else if m == UserIdRequired then 1
    else if m == IntervalTooShort then 2
    else if m == ProbabilityOutOfRange then 3
    else if m == DelayInverted then 4
    else 5
  }

  /** Whether `c` fails check number `k` (0 to 4, in the order `validate` performs them). */
  predicate Fails(c: Settings, k: nat) {
    match k
    case 0 => c.botToken == ""
    case 1 => c.userId == 0
    case 2 => c.postIntervalHours < 1
    case 3 => !(0.0 <= c.replyProbability <= 1.0)
    case 4 => c.replyDelayMin > c.replyDelayMax
    case _ => false
  }

  /** The messages of the checks before number `k` that `c` fails, in check order. */
  function ViolationsBefore(c: Settings, k: nat): seq<string>
    requires k <= 5
  {
    if k == 0 then []
    else ViolationsBefore(c, k - 1) + (if Fails(c, k - 1) then [CheckMessages[k - 1]] else [])
  }

  /** The messages of all the checks `c` fails. */
  function Violations(c: Settings): seq<string> {
    ViolationsBefore(c, 5)
  }

  /** `validate`: collects one message per failed check and reports validity as "no message". */
  method Validate(c: Settings) returns (isValid: bool, errors: seq<string>)
    ensures errors == Violations(c)
    ensures isValid <==> errors == []
  {
    errors := [];
    errors := errors + (if c.botToken == "" then [TokenRequired] else []);
    assert errors == ViolationsBefore(c, 1);
    errors := errors + (if c.userId == 0 then [UserIdRequired] else []);
    assert errors == ViolationsBefore(c, 2);
    errors := errors + (if c.postIntervalHours < 1 then [IntervalTooShort] else []);
    assert errors == ViolationsBefore(c, 3);
    errors := errors + (if !(0.0 <= c.replyProbability <= 1.0) then [ProbabilityOutOfRange] else []);
    assert errors == ViolationsBefore(c, 4);
    errors := errors + (if c.replyDelayMin > c.replyDelayMax then [DelayInverted] else []);
    assert errors == ViolationsBefore(c, 5);
    isValid := |errors| == 0;
  }

  /** The five messages are told apart by their rank. */
  lemma RanksOfMessages()
    ensures Rank(TokenRequired) == 0 && Rank(UserIdRequired) == 1 && Rank(IntervalTooShort) == 2
    ensures Rank(ProbabilityOutOfRange) == 3 && Rank(DelayInverted) == 4
    ensures forall k :: 0 <= k < 5 ==> Rank(CheckMessages[k]) == k
  {
    assert |TokenRequired| == 21 && |UserIdRequired| == 56 && |IntervalTooShort| == 38;
    assert |ProbabilityOutOfRange| == 41 && |DelayInverted| == 54;
  }

  /** Every message before check `k` names one of the checks 0 to `k` - 1, by its rank. */
  lemma {:induction false} ViolationsBeforeRanks(c: Settings, k: nat)
    requires k <= 5
    ensures |ViolationsBefore(c, k)| <= k
    ensures forall i :: 0 <= i < |ViolationsBefore(c, k)| ==>
      Rank(ViolationsBefore(c, k)[i]) < k && ViolationsBefore(c, k)[i] == CheckMessages[Rank(ViolationsBefore(c, k)[i])]
  {
    if k > 0 {
      RanksOfMessages();
      ViolationsBeforeRanks(c, k - 1);
    }
  }

  /** Ranks strictly increase along the messages. */
  lemma {:induction false} ViolationsBeforeOrdered(c: Settings, k: nat)
    requires k <= 5
    ensures forall i, j :: 0 <= i < j < |ViolationsBefore(c, k)| ==>
      Rank(ViolationsBefore(c, k)[i]) < Rank(ViolationsBefore(c, k)[j])
  {
    if k > 0 {
      RanksOfMessages();
      ViolationsBeforeRanks(c, k - 1);
      ViolationsBeforeOrdered(c, k - 1);
    }
  }

  /** A check before `k` fails exactly when its message is among the messages. */
  lemma {:induction false} ViolationsBeforeMembers(c: Settings, k: nat)
    requires k <= 5
    ensures forall j :: 0 <= j < k ==> (Fails(c, j) <==> CheckMessages[j] in ViolationsBefore(c, k))
  {
    if k > 0 {
      RanksOfMessages();
      ViolationsBeforeRanks(c, k - 1);
      ViolationsBeforeMembers(c, k - 1);
      var prior := ViolationsBefore(c, k - 1);
      assert CheckMessages[k - 1] !in prior;
      forall j | 0 <= j < k - 1
        ensures CheckMessages[j] in ViolationsBefore(c, k) <==> CheckMessages[j] in prior
      {
        assert Rank(CheckMessages[j]) != Rank(CheckMessages[k - 1]);
      }
    }
  }

  /** Each message of `validate` is present exactly when its check fails. */
  lemma ViolationsExactlyFailedChecks(c: Settings)
    ensures TokenRequired in Violations(c) <==> c.botToken == ""
    ensures UserIdRequired in Violations(c) <==> c.userId == 0
    ensures IntervalTooShort in Violations(c) <==> c.postIntervalHours < 1
    ensures ProbabilityOutOfRange in Violations(c) <==> !(0.0 <= c.replyProbability <= 1.0)
    ensures DelayInverted in Violations(c) <==> c.replyDelayMin > c.replyDelayMax
  {
    ViolationsBeforeMembers(c, 5);
    assert Fails(c, 0) <==> c.botToken == "";
    assert Fails(c, 1) <==> c.userId == 0;
    assert Fails(c, 2) <==> c.postIntervalHours < 1;
    assert Fails(c, 3) <==> !(0.0 <= c.replyProbability <= 1.0);
    assert Fails(c, 4) <==> c.replyDelayMin > c.replyDelayMax;
  }

  /** Messages follow the check order without repetition, so there are at most five. */
  lemma ViolationsInCheckOrder(c: Settings)
    ensures forall i :: 0 <= i < |Violations(c)| ==> Violations(c)[i] in CheckMessages
    ensures forall i, j :: 0 <= i < j < |Violations(c)| ==> Rank(Violations(c)[i]) < Rank(Violations(c)[j])
    ensures |Violations(c)| <= 5
  {
    ViolationsBeforeRanks(c, 5);
    ViolationsBeforeOrdered(c, 5);
  }

  /** A configuration meeting every requirement is accepted with no errors. */
  lemma WellFormedSettingsAccepted(c: Settings)
    requires c.botToken != "" && c.userId != 0 && c.postIntervalHours >= 1
    requires 0.0 <= c.replyProbability <= 1.0 && c.replyDelayMin <= c.replyDelayMax
    ensures Violations(c) == []
  {
    assert ViolationsBefore(c, 1) == [];
    assert ViolationsBefore(c, 2) == [];
    assert ViolationsBefore(c, 3) == [];
    assert ViolationsBefore(c, 4) == [];
  }

  /** The interval and delay checks at their boundaries. */
  lemma ValidationBoundaries(c: Settings)
    ensures c.postIntervalHours == 1 ==> IntervalTooShort !in Violations(c)
    ensures c.postIntervalHours == 0 ==> IntervalTooShort in Violations(c)
    ensures c.replyDelayMin == c.replyDelayMax ==> DelayInverted !in Violations(c)
    ensures c.replyDelayMin == c.replyDelayMax + 1 ==> DelayInverted in Violations(c)
  {
    ViolationsExactlyFailedChecks(c);
  }

  /** The stripped, non-empty parts of a list of pieces, in order. */
  function CleanItems(parts: seq<string>, sep: char): (items: seq<string>)
    requires forall k :: 0 <= k < |parts| ==> sep !in parts[k]
    ensures |items| <= |parts|
    ensures forall k :: 0 <= k < |items| ==> items[k] != [] && IsTrimmed(items[k]) && sep !in items[k]
  {
    if parts == [] then []
    else
      var item := Strip(parts[0]);
      assert sep !in item by {
        if sep in item { StripChars(parts[0], sep); }
      }
      (if item == [] then [] else [item]) + CleanItems(parts[1..], sep)
  }

  /** `_parse_list`: a comma-separated value as its stripped, non-empty items. */
  function ParseList(value: string): (items: seq<string>)
    ensures value == "" ==> items == []
    ensures forall k :: 0 <= k < |items| ==> items[k] != "" && IsTrimmed(items[k]) && ',' !in items[k]
  {
    if value == "" then [] else CleanItems(Split(value, ','), ',')
  }

  lemma {:induction false} CleanItemsAppend(a: seq<string>, b: seq<string>, sep: char)
    requires forall k :: 0 <= k < |a| ==> sep !in a[k]
    requires forall k :: 0 <= k < |b| ==> sep !in b[k]
    ensures CleanItems(a + b, sep) == CleanItems(a, sep) + CleanItems(b, sep)
  {
    if a == [] {
      assert a + b == b;
    } else {
      assert (a + b)[0] == a[0];
      assert (a + b)[1..] == a[1..] + b;
      CleanItemsAppend(a[1..], b, sep);
      var item := Strip(a[0]);
      var piece := if item == [] then [] else [item];
      calc {
        CleanItems(a + b, sep);
        piece + CleanItems(a[1..] + b, sep);
        piece + (CleanItems(a[1..], sep) + CleanItems(b, sep));
        (piece + CleanItems(a[1..], sep)) + CleanItems(b, sep);
      }
    }
  }

  /** A comma splits the list into the items of its left side followed by those of its right side. */
  lemma ParseListAround(a: string, b: string)
    ensures ParseList(a + [','] + b) == ParseList(a) + ParseList(b)
  {
    SplitAround(a, b, ',');
    CleanItemsAppend(Split(a, ','), Split(b, ','), ',');
    assert Split("", ',') == [""];
    assert a == "" ==> CleanItems(Split(a, ','), ',') == [];
    assert b == "" ==> CleanItems(Split(b, ','), ',') == [];
  }

  /** A value without commas is one item, stripped, or no item if it is all whitespace. */
  lemma ParseListSingle(s: string)
    requires ',' !in s
    ensures ParseList(s) == if Strip(s) == "" then [] else [Strip(s)]
  {
    if s != "" {
      SplitWithoutSeparator(s, ',');
    }
  }

  /** Every item is left unchanged by a further strip. */
  lemma ParseListItemsStripped(value: string, k: nat)
    requires k < |ParseList(value)|
    ensures Strip(ParseList(value)[k]) == ParseList(value)[k]
  {
    StripKeepsTrimmed(ParseList(value)[k]);
  }

  /** `is_production`: the environment name lower-cased is `production`. */
  predicate IsProduction(c: Settings) {
    Lower(c.environment) == "production"
  }

  /** The `'true'` flag parse: the variable, defaulting to `'false'`, lower-cased equals `true`. */
  predicate ParseFlag(raw: Option<string>) {
    Lower(raw.GetOr("false")) == "true"
  }

  /** A flag is on exactly when its value spells `true` in any mix of cases; unset means off. */
  lemma ParseFlagMeaning(raw: Option<string>)
    ensures raw.None? ==> !ParseFlag(raw)
    ensures raw.Some? ==> (ParseFlag(raw) <==>
      |raw.value| == 4
      && (raw.value[0] == 't' || raw.value[0] == 'T')
      && (raw.value[1] == 'r' || raw.value[1] == 'R')
      && (raw.value[2] == 'u' || raw.value[2] == 'U')
      && (raw.value[3] == 'e' || raw.value[3] == 'E'))
  {
    if raw.None? {
      assert Lower("false")[0] == 'f';
    } else {
      LowerEqualsWord(raw.value, "true");
    }
  }

  /** The production check accepts `production` in any case and rejects the default `development`. */
  lemma IsProductionMeaning(c: Settings)
    ensures IsProduction(c) <==>
      |c.environment| == 10
      && forall k :: 0 <= k < 10 ==>
        c.environment[k] == "production"[k] || c.environment[k] == UpperChar("production"[k])
    ensures c.environment == "development" ==> !IsProduction(c)
  {
    LowerEqualsWord(c.environment, "production");
  }
}
