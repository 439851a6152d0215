/** Validation of a routing algorithm against the connector accounts of one
    business profile (`validate_connectors_in_routing_config`).

    A routing algorithm is a small tree whose leaves are connector choices.
    Validation walks every leaf in document order and stops at the first
    choice that names no account of the profile. */
module RoutingValidation {
  import opened Common

  /** A leaf of the routing tree. `connector` is the connector's name as its
      `to_string` renders it; `merchantConnectorId`, when present, pins one
      specific account. */
  datatype ConnectorChoice = ConnectorChoice(connector: string, merchantConnectorId: Option<string>)

  /** One entry of a volume split: a choice and its weight (never inspected). */
  datatype ConnectorVolumeSplit = ConnectorVolumeSplit(connector: ConnectorChoice, split: nat)

  datatype ConnectorSelection =
    | PrioritySelection(choices: seq<ConnectorChoice>)
    | VolumeSplitSelection(splits: seq<ConnectorVolumeSplit>)

  /** A rule of an advanced program; its condition plays no part in validation. */
  datatype Rule = Rule(name: string, connectorSelection: ConnectorSelection)

  datatype Program = Program(defaultSelection: ConnectorSelection, rules: seq<Rule>)

  datatype RoutingAlgorithm =
    | Single(choice: ConnectorChoice)
    | Priority(choices: seq<ConnectorChoice>)
    | VolumeSplit(splits: seq<ConnectorVolumeSplit>)
    | Advanced(program: Program)

  /** The fields of a merchant connector account that validation reads. */
  datatype MerchantConnectorAccount =
    MerchantConnectorAccount(connectorName: string, merchantConnectorId: string, profileId: Option<string>)

  datatype ValidationError =
    | MerchantConnectorAccountNotFound(merchantId: string)
    | ConnectorNotFoundForProfile(connector: string, merchantConnectorId: Option<string>)

  /** The message attached to an `InvalidRequestData` error. */
  function ErrorMessage(e: ValidationError): (msg: string)
    requires e.ConnectorNotFoundForProfile?
    ensures e.merchantConnectorId.None? ==>
      msg == "connector with name '" + e.connector + "' not found for the given profile"
    ensures e.merchantConnectorId.Some? ==>
      msg == "connector with name '" + e.connector + "' and merchant connector account id '"
             + e.merchantConnectorId.value + "' not found for the given profile"
  {
    match e.merchantConnectorId
    case Some(id) =>
      "connector with name '" + e.connector + "' and merchant connector account id '"
      + id + "' not found for the given profile"
    case None => "connector with name '" + e.connector + "' not found for the given profile"
  }

  /** Position of the first quote in `s` (`|s|` when there is none). */
  function QuoteIndex(s: string): (k: nat)
    ensures k <= |s|
  {
    if s == [] || s[0] == '\'' then 0 else 1 + QuoteIndex(s[1..])
  }

  lemma {:induction false} QuoteIndexAfterHead(h: string, t: string)
    requires '\'' !in h && |t| > 0 && t[0] == '\''
    ensures QuoteIndex(h + t) == |h|
  {
    if h == [] {
      assert h + t == t;
    } else {
      assert h[0] in h;
      assert (h + t)[1..] == h[1..] + t;
      QuoteIndexAfterHead(h[1..], t);
    }
  }

  /** A quote-free head followed by a tail that opens with a quote is
      determined by the whole string. */
  lemma SplitAtQuote(h1: string, t1: string, h2: string, t2: string)
    requires '\'' !in h1 && '\'' !in h2
    requires |t1| > 0 && t1[0] == '\'' && |t2| > 0 && t2[0] == '\''
    requires h1 + t1 == h2 + t2
    ensures h1 == h2 && t1 == t2
  {
    QuoteIndexAfterHead(h1, t1);
    QuoteIndexAfterHead(h2, t2);
    assert h1 == (h1 + t1)[..|h1|];
    assert h2 == (h2 + t2)[..|h2|];
    assert t1 == (h1 + t1)[|h1|..];
    assert t2 == (h2 + t2)[|h2|..];
  }

  /** The part of a message after the connector's name. */
  function MessageTail(id: Option<string>): string {
    match id
    case Some(id) => "' and merchant connector account id '" + id + "' not found for the given profile"
    case None => "' not found for the given profile"
  }

  lemma MessageSplits(e: ValidationError)
    requires e.ConnectorNotFoundForProfile?
    ensures ErrorMessage(e) == "connector with name '" + (e.connector + MessageTail(e.merchantConnectorId))
  {
  }

  /** The tail of a message determines the account id (or its absence). */
  lemma TailIdentifiesId(i1: Option<string>, i2: Option<string>)
    requires i1.Some? ==> '\'' !in i1.value
    requires i2.Some? ==> '\'' !in i2.value
    requires MessageTail(i1) == MessageTail(i2)
    ensures i1 == i2
  {
    var t1, t2 := MessageTail(i1), MessageTail(i2);
    var mid := "' and merchant connector account id '";
    var rest := "' not found for the given profile";
    match (i1, i2)
    case (None, None) =>
    case (Some(_), None) =>
      assert false;
    case (None, Some(_)) =>
      assert false;
    case (Some(a), Some(b)) =>
      assert a + rest == t1[|mid|..];
      assert b + rest == t2[|mid|..];
      SplitAtQuote(a, rest, b, rest);
  }

  /** The message names the rejected choice: as long as connector names and
      account ids carry no quote, two equal messages come from the same
      connector and the same account id (or the absence of one). */
  lemma ErrorMessageIdentifiesChoice(e1: ValidationError, e2: ValidationError)
    requires e1.ConnectorNotFoundForProfile? && e2.ConnectorNotFoundForProfile?
    requires '\'' !in e1.connector && '\'' !in e2.connector
    requires e1.merchantConnectorId.Some? ==> '\'' !in e1.merchantConnectorId.value
    requires e2.merchantConnectorId.Some? ==> '\'' !in e2.merchantConnectorId.value
    requires ErrorMessage(e1) == ErrorMessage(e2)
    ensures e1 == e2
  {
    var prefix := "connector with name '";
    var r1 := e1.connector + MessageTail(e1.merchantConnectorId);
    var r2 := e2.connector + MessageTail(e2.merchantConnectorId);
    MessageSplits(e1);
    MessageSplits(e2);
    assert r1 == (prefix + r1)[|prefix|..];
    assert r2 == (prefix + r2)[|prefix|..];
    SplitAtQuote(e1.connector, MessageTail(e1.merchantConnectorId), e2.connector, MessageTail(e2.merchantConnectorId));
    TailIdentifiesId(e1.merchantConnectorId, e2.merchantConnectorId);
  }

  // ---------------------------------------------------------------------------
  // The two lookup sets

  /** `(connector_name, merchant_connector_id)` of every account of the profile. */
  function NameMcaIdSet(accounts: seq<MerchantConnectorAccount>, profileId: string): set<(string, string)> {
    set a | a in accounts && a.profileId == Some(profileId) :: (a.connectorName, a.merchantConnectorId)
  }

  /** `connector_name` of every account of the profile. */
  function NameSet(accounts: seq<MerchantConnectorAccount>, profileId: string): set<string> {
    set a | a in accounts && a.profileId == Some(profileId) :: a.connectorName
  }

  /** Reference meaning of "this choice is backed by an account of the profile",
      stated directly over the account list. */
  ghost predicate ChoiceBacked(accounts: seq<MerchantConnectorAccount>, profileId: string, c: ConnectorChoice) {
    exists a :: a in accounts && a.profileId == Some(profileId) && a.connectorName == c.connector
      && (c.merchantConnectorId.Some? ==> a.merchantConnectorId == c.merchantConnectorId.value)
  }

  // ---------------------------------------------------------------------------
  // The walk, as the source performs it

  /** The per-choice check: a pinned choice needs its exact pair, an unpinned
      one only its name. */
  function CheckChoice(pairs: set<(string, string)>, names: set<string>, c: ConnectorChoice): (o: Outcome<ValidationError>)
    ensures o.Fail? ==> o.error == ConnectorNotFoundForProfile(c.connector, c.merchantConnectorId)
    ensures c.merchantConnectorId.Some? ==> (o.Pass? <==> (c.connector, c.merchantConnectorId.value) in pairs)
    ensures c.merchantConnectorId.None? ==> (o.Pass? <==> c.connector in names)
  {
    match c.merchantConnectorId
    case Some(id) =>
      if (c.connector, id) in pairs then Pass else Fail(ConnectorNotFoundForProfile(c.connector, c.merchantConnectorId))
    case None =>
      if c.connector in names then Pass else Fail(ConnectorNotFoundForProfile(c.connector, None))
  }

  /** Checks a list of choices in order, returning the first failure. */
  function CheckChoices(pairs: set<(string, string)>, names: set<string>, cs: seq<ConnectorChoice>): (o: Outcome<ValidationError>)
    ensures o.Pass? <==> forall i :: 0 <= i < |cs| ==> CheckChoice(pairs, names, cs[i]).Pass?
    ensures o.Fail? ==> exists k :: 0 <= k < |cs| && o == CheckChoice(pairs, names, cs[k])
                                    && forall i :: 0 <= i < k ==> CheckChoice(pairs, names, cs[i]).Pass?
  {
    if cs == [] then Pass
    else
      match CheckChoice(pairs, names, cs[0])
      case Fail(e) => Fail(e)
      case Pass =>
        var rest := CheckChoices(pairs, names, cs[1..]);
        assert forall i :: 1 <= i < |cs| ==> cs[i] == cs[1..][i - 1];
        rest
  }

  /** Checks the connector of every split in order; the weights are not read. */
  function CheckSplits(pairs: set<(string, string)>, names: set<string>, splits: seq<ConnectorVolumeSplit>): (o: Outcome<ValidationError>)
    ensures o.Fail? ==> o.error.ConnectorNotFoundForProfile?
  {
    if splits == [] then Pass
    else
      match CheckChoice(pairs, names, splits[0].connector)
      case Fail(e) => Fail(e)
      case Pass => CheckSplits(pairs, names, splits[1..])
  }

  function CheckSelection(pairs: set<(string, string)>, names: set<string>, sel: ConnectorSelection): (o: Outcome<ValidationError>)
    ensures o.Fail? ==> o.error.ConnectorNotFoundForProfile?
  {
    match sel
    case VolumeSplitSelection(splits) => CheckSplits(pairs, names, splits)
    case PrioritySelection(cs) => CheckChoices(pairs, names, cs)
  }

  /** Checks the selection of every rule, in rule order. */
  function CheckRules(pairs: set<(string, string)>, names: set<string>, rules: seq<Rule>): (o: Outcome<ValidationError>)
    ensures o.Fail? ==> o.error.ConnectorNotFoundForProfile?
  {
    if rules == [] then Pass
    else
      match CheckSelection(pairs, names, rules[0].connectorSelection)
      case Fail(e) => Fail(e)
      case Pass => CheckRules(pairs, names, rules[1..])
  }

  /** `validate_connectors_in_routing_config`. `fetched` is what the account
      lookup for the merchant returned; `None` is a failed lookup. */
  function ValidateConnectorsInRoutingConfig(
    fetched: Option<seq<MerchantConnectorAccount>>, merchantId: string, profileId: string, algorithm: RoutingAlgorithm
  ): (o: Outcome<ValidationError>)
    ensures fetched.None? ==> o == Fail(MerchantConnectorAccountNotFound(merchantId))
    ensures o.Fail? && fetched.Some? ==> o.error.ConnectorNotFoundForProfile?
  {
    match fetched
    case None => Fail(MerchantConnectorAccountNotFound(merchantId))
    case Some(accounts) =>
      var pairs := NameMcaIdSet(accounts, profileId);
      var names := NameSet(accounts, profileId);
      match algorithm
      case Single(c) => CheckChoice(pairs, names, c)
      case Priority(cs) => CheckChoices(pairs, names, cs)
      case VolumeSplit(splits) => CheckSplits(pairs, names, splits)
      case Advanced(program) =>
        match CheckSelection(pairs, names, program.defaultSelection)
        case Fail(e) => Fail(e)
        case Pass => CheckRules(pairs, names, program.rules)
  }

  // ---------------------------------------------------------------------------
  // Reference: the leaves of the tree, in document order

  function SplitConnectors(splits: seq<ConnectorVolumeSplit>): (cs: seq<ConnectorChoice>)
    ensures |cs| == |splits| && forall i :: 0 <= i < |splits| ==> cs[i] == splits[i].connector
  {
    if splits == [] then [] else [splits[0].connector] + SplitConnectors(splits[1..])
  }

  function SelectionLeaves(sel: ConnectorSelection): seq<ConnectorChoice> {
    match sel
    case PrioritySelection(cs) => cs
    case VolumeSplitSelection(splits) => SplitConnectors(splits)
  }

  function RulesLeaves(rules: seq<Rule>): seq<ConnectorChoice> {
    if rules == [] then [] else SelectionLeaves(rules[0].connectorSelection) + RulesLeaves(rules[1..])
  }

  /** Every connector choice of the algorithm, in the order the source visits them. */
  function Leaves(algorithm: RoutingAlgorithm): seq<ConnectorChoice> {
    match algorithm
    case Single(c) => [c]
    case Priority(cs) => cs
    case VolumeSplit(splits) => SplitConnectors(splits)
    case Advanced(program) => SelectionLeaves(program.defaultSelection) + RulesLeaves(program.rules)
  }

  // ---------------------------------------------------------------------------
  // Lemmas

  /** The set-based check of one choice agrees with the account list. */
  lemma CheckChoiceMatchesAccounts(accounts: seq<MerchantConnectorAccount>, profileId: string, c: ConnectorChoice)
    ensures CheckChoice(NameMcaIdSet(accounts, profileId), NameSet(accounts, profileId), c).Pass?
            <==> ChoiceBacked(accounts, profileId, c)
  {
    var pairs, names := NameMcaIdSet(accounts, profileId), NameSet(accounts, profileId);
    if ChoiceBacked(accounts, profileId, c) {
      var a :| a in accounts && a.profileId == Some(profileId) && a.connectorName == c.connector
               && (c.merchantConnectorId.Some? ==> a.merchantConnectorId == c.merchantConnectorId.value);
      assert a.connectorName in names;
      assert (a.connectorName, a.merchantConnectorId) in pairs;
    }
    if CheckChoice(pairs, names, c).Pass? {
      match c.merchantConnectorId
      case Some(id) =>
        var a :| a in accounts && a.profileId == Some(profileId) && (a.connectorName, a.merchantConnectorId) == (c.connector, id);
      case None =>
        var a :| a in accounts && a.profileId == Some(profileId) && a.connectorName == c.connector;
    }
  }

  /** Checking a concatenation checks the first part, then the second. */
  lemma {:induction false} CheckChoicesAppend(pairs: set<(string, string)>, names: set<string>, a: seq<ConnectorChoice>, b: seq<ConnectorChoice>)
    ensures CheckChoices(pairs, names, a + b)
            == if CheckChoices(pairs, names, a).Fail? then CheckChoices(pairs, names, a) else CheckChoices(pairs, names, b)
  {
    if a == [] {
      assert a + b == b;
    } else {
      assert (a + b)[0] == a[0];
      assert (a + b)[1..] == a[1..] + b;
      if CheckChoice(pairs, names, a[0]).Pass? {
        CheckChoicesAppend(pairs, names, a[1..], b);
      }
    }
  }

  /** A volume split is checked exactly as the list of its connectors: weights
      never influence the outcome. */
  lemma {:induction false} CheckSplitsIgnoresWeights(pairs: set<(string, string)>, names: set<string>, splits: seq<ConnectorVolumeSplit>)
    ensures CheckSplits(pairs, names, splits) == CheckChoices(pairs, names, SplitConnectors(splits))
  {
    if splits != [] {
      CheckSplitsIgnoresWeights(pairs, names, splits[1..]);
      assert SplitConnectors(splits)[1..] == SplitConnectors(splits[1..]);
    }
  }

  lemma CheckSelectionIsLeafCheck(pairs: set<(string, string)>, names: set<string>, sel: ConnectorSelection)
    ensures CheckSelection(pairs, names, sel) == CheckChoices(pairs, names, SelectionLeaves(sel))
  {
    if sel.VolumeSplitSelection? {
      CheckSplitsIgnoresWeights(pairs, names, sel.splits);
    }
  }

  lemma {:induction false} CheckRulesIsLeafCheck(pairs: set<(string, string)>, names: set<string>, rules: seq<Rule>)
    ensures CheckRules(pairs, names, rules) == CheckChoices(pairs, names, RulesLeaves(rules))
  {
    if rules != [] {
      CheckSelectionIsLeafCheck(pairs, names, rules[0].connectorSelection);
      CheckRulesIsLeafCheck(pairs, names, rules[1..]);
      CheckChoicesAppend(pairs, names, SelectionLeaves(rules[0].connectorSelection), RulesLeaves(rules[1..]));
    }
  }

  /** Validation is exactly the in-order, first-failure check of the leaves. */
  lemma ValidateChecksLeavesInOrder(accounts: seq<MerchantConnectorAccount>, merchantId: string, profileId: string, algorithm: RoutingAlgorithm)
    ensures ValidateConnectorsInRoutingConfig(Some(accounts), merchantId, profileId, algorithm)
            == CheckChoices(NameMcaIdSet(accounts, profileId), NameSet(accounts, profileId), Leaves(algorithm))
  {
    var pairs, names := NameMcaIdSet(accounts, profileId), NameSet(accounts, profileId);
    match algorithm
    case Single(c) =>
      assert [c][1..] == [];
    case Priority(cs) =>
    case VolumeSplit(splits) =>
      CheckSplitsIgnoresWeights(pairs, names, splits);
    case Advanced(program) =>
      CheckSelectionIsLeafCheck(pairs, names, program.defaultSelection);
      CheckRulesIsLeafCheck(pairs, names, program.rules);
      CheckChoicesAppend(pairs, names, SelectionLeaves(program.defaultSelection), RulesLeaves(program.rules));
  }

  /** Validation accepts iff every leaf of the algorithm is backed by an account
      of the profile. */
  lemma ValidateAcceptsIffAllLeavesBacked(accounts: seq<MerchantConnectorAccount>, merchantId: string, profileId: string, algorithm: RoutingAlgorithm)
    ensures ValidateConnectorsInRoutingConfig(Some(accounts), merchantId, profileId, algorithm).Pass?
            <==> forall i :: 0 <= i < |Leaves(algorithm)| ==> ChoiceBacked(accounts, profileId, Leaves(algorithm)[i])
  {
    ValidateChecksLeavesInOrder(accounts, merchantId, profileId, algorithm);
    var leaves := Leaves(algorithm);
    forall i | 0 <= i < |leaves|
      ensures CheckChoice(NameMcaIdSet(accounts, profileId), NameSet(accounts, profileId), leaves[i]).Pass?
              <==> ChoiceBacked(accounts, profileId, leaves[i])
    {
      CheckChoiceMatchesAccounts(accounts, profileId, leaves[i]);
    }
  }

  /** On rejection the error names the first leaf, in document order, that no
      account of the profile backs. */
  lemma ValidateNamesFirstUnbackedLeaf(accounts: seq<MerchantConnectorAccount>, merchantId: string, profileId: string, algorithm: RoutingAlgorithm)
    requires ValidateConnectorsInRoutingConfig(Some(accounts), merchantId, profileId, algorithm).Fail?
    ensures exists k :: (0 <= k < |Leaves(algorithm)|
                         && !ChoiceBacked(accounts, profileId, Leaves(algorithm)[k])
                         && (forall i :: 0 <= i < k ==> ChoiceBacked(accounts, profileId, Leaves(algorithm)[i]))
                         && ValidateConnectorsInRoutingConfig(Some(accounts), merchantId, profileId, algorithm)
                            == Fail(ConnectorNotFoundForProfile(Leaves(algorithm)[k].connector, Leaves(algorithm)[k].merchantConnectorId)))
  {
    ValidateChecksLeavesInOrder(accounts, merchantId, profileId, algorithm);
    var pairs, names := NameMcaIdSet(accounts, profileId), NameSet(accounts, profileId);
    var leaves := Leaves(algorithm);
    var k :| 0 <= k < |leaves| && CheckChoices(pairs, names, leaves) == CheckChoice(pairs, names, leaves[k])
             && forall i :: 0 <= i < k ==> CheckChoice(pairs, names, leaves[i]).Pass?;
    CheckChoiceMatchesAccounts(accounts, profileId, leaves[k]);
    forall i | 0 <= i < k ensures ChoiceBacked(accounts, profileId, leaves[i]) {
      CheckChoiceMatchesAccounts(accounts, profileId, leaves[i]);
    }
  }

  /** When exactly one leaf, however deep in the tree, is not backed by an
      account, validation fails and names that leaf's connector and account id. */
  lemma ValidateNamesTheOnlyUnbackedLeaf(accounts: seq<MerchantConnectorAccount>, merchantId: string, profileId: string, algorithm: RoutingAlgorithm, k: nat)
    requires k < |Leaves(algorithm)| && !ChoiceBacked(accounts, profileId, Leaves(algorithm)[k])
    requires forall i :: 0 <= i < |Leaves(algorithm)| && i != k ==> ChoiceBacked(accounts, profileId, Leaves(algorithm)[i])
    ensures ValidateConnectorsInRoutingConfig(Some(accounts), merchantId, profileId, algorithm)
            == Fail(ConnectorNotFoundForProfile(Leaves(algorithm)[k].connector, Leaves(algorithm)[k].merchantConnectorId))
  {
    ValidateAcceptsIffAllLeavesBacked(accounts, merchantId, profileId, algorithm);
    ValidateNamesFirstUnbackedLeaf(accounts, merchantId, profileId, algorithm);
  }

  /** Accounts attached to another profile (or to none) never change the verdict. */
  lemma ValidateIgnoresOtherProfiles(
    accounts: seq<MerchantConnectorAccount>, extra: MerchantConnectorAccount, merchantId: string, profileId: string, algorithm: RoutingAlgorithm)
    requires extra.profileId != Some(profileId)
    ensures ValidateConnectorsInRoutingConfig(Some(accounts + [extra]), merchantId, profileId, algorithm)
            == ValidateConnectorsInRoutingConfig(Some(accounts), merchantId, profileId, algorithm)
  {
    assert NameMcaIdSet(accounts + [extra], profileId) == NameMcaIdSet(accounts, profileId);
    assert NameSet(accounts + [extra], profileId) == NameSet(accounts, profileId);
  }

  /** A choice pinned to an account id is not satisfied by another account of
      the same connector: the pair set is consulted, not the name set. */
  lemma PinnedChoiceNeedsItsAccount(profileId: string, name: string, id: string, other: string)
    requires id != other
    ensures
      var accounts := [MerchantConnectorAccount(name, other, Some(profileId))];
      && CheckChoice(NameMcaIdSet(accounts, profileId), NameSet(accounts, profileId), ConnectorChoice(name, Some(id))).Fail?
      && CheckChoice(NameMcaIdSet(accounts, profileId), NameSet(accounts, profileId), ConnectorChoice(name, None)).Pass?
  {
    var accounts := [MerchantConnectorAccount(name, other, Some(profileId))];
    assert NameMcaIdSet(accounts, profileId) == {(name, other)};
    assert NameSet(accounts, profileId) == {name};
  }
}
