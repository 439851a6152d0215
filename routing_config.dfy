/** The routing configuration store (`core/routing/helpers.rs`): the storage
    keys of routing data, the get-or-create read of a merchant's default
    connector list, whole-value overwrites of the default list, the routing
    dictionary and an algorithm, and the two activation operations, which
    write an active-algorithm reference and then publish a cache
    invalidation. */
module RoutingConfig {
  import opened Common
  import opened RoutingValidation

  datatype TransactionType = Payment | Payout

  // ---------------------------------------------------------------------------
  // Storage keys

  /** `routing_dict_{merchant_id}` */
  function RoutingDictionaryKey(merchantId: string): string {
    "routing_dict_" + merchantId
  }

  /** `routing_default_{merchant_id}` for payments, `routing_default_po_{merchant_id}` for payouts. */
  function DefaultConfigKey(merchantId: string, transactionType: TransactionType): string {
    match transactionType
    case Payment => "routing_default_" + merchantId
    case Payout => "routing_default_po_" + merchantId
  }

  /** `routing_config_{merchant_id}_{profile_id}`: the cache entry of a profile's routing. */
  function RoutingCacheKey(merchantId: string, profileId: string): string {
    "routing_config_" + merchantId + "_" + profileId
  }

  /** Different merchants have different dictionary keys. */
  lemma RoutingDictionaryKeyInjective(m1: string, m2: string)
    requires RoutingDictionaryKey(m1) == RoutingDictionaryKey(m2)
    ensures m1 == m2
  {
    assert m1 == RoutingDictionaryKey(m1)[13..];
    assert m2 == RoutingDictionaryKey(m2)[13..];
  }

  /** For one transaction type, different merchants have different default-list keys. */
  lemma DefaultConfigKeyInjective(m1: string, m2: string, t: TransactionType)
    requires DefaultConfigKey(m1, t) == DefaultConfigKey(m2, t)
    ensures m1 == m2
  {
    var n := if t.Payment? then 16 else 19;
    assert m1 == DefaultConfigKey(m1, t)[n..];
    assert m2 == DefaultConfigKey(m2, t)[n..];
  }

  /** A merchant's payment list and payout list live under different keys. */
  lemma PaymentAndPayoutKeysDiffer(merchantId: string)
    ensures DefaultConfigKey(merchantId, Payment) != DefaultConfigKey(merchantId, Payout)
  {
    assert |DefaultConfigKey(merchantId, Payment)| + 3 == |DefaultConfigKey(merchantId, Payout)|;
  }

  /** Across merchants the two key families do overlap: the payment list of a
      merchant whose id starts with `po_` shares its key with the payout list
      of the merchant named by the rest of that id, so each reads and
      overwrites the other's list. */
  lemma PaymentAndPayoutKeysOverlapAcrossMerchants(merchantId: string)
    ensures DefaultConfigKey("po_" + merchantId, Payment) == DefaultConfigKey(merchantId, Payout)
  {
    assert "routing_default_" + ("po_" + merchantId) == ("routing_default_" + "po_") + merchantId;
  }

  /** A dictionary key is never a default-list key. */
  lemma DictionaryAndDefaultKeysDisjoint(m1: string, m2: string, t: TransactionType)
    ensures RoutingDictionaryKey(m1) != DefaultConfigKey(m2, t)
  {
    assert RoutingDictionaryKey(m1)[9] == 'i';
    assert DefaultConfigKey(m2, t)[9] == 'e';
  }

  // ---------------------------------------------------------------------------
  // Stored values

  /** Reference to the active algorithm (`RoutingAlgorithmRef`), stored as JSON. */
  datatype AlgorithmRef = AlgorithmRef(algorithmId: Option<string>, timestamp: int)

  datatype DictionaryRecord = DictionaryRecord(id: string, name: string, description: string)

  /** A merchant's routing dictionary: its records and the active one. */
  datatype RoutingDictionary = RoutingDictionary(merchantId: string, activeId: Option<string>, records: seq<DictionaryRecord>)

  /** What a config row holds, read back as the structure its reader expects;
      `Unparsable` is text that parses as none of them. */
  datatype ConfigValue =
    | DefaultConnectors(connectors: seq<ConnectorChoice>)
    | Dictionary(dictionary: RoutingDictionary)
    | Algorithm(algorithm: RoutingAlgorithm)
    | Unparsable

  /** The routing columns of a merchant account. */
  datatype MerchantAccount = MerchantAccount(merchantId: string, routingAlgorithm: Option<AlgorithmRef>, payoutRoutingAlgorithm: Option<AlgorithmRef>)

  /** The routing columns of a business profile. */
  datatype BusinessProfile = BusinessProfile(
    profileId: string, merchantId: string, routingAlgorithm: Option<AlgorithmRef>, payoutRoutingAlgorithm: Option<AlgorithmRef>)

  datatype CacheKind = RoutingCache(key: string) | ConfigCache(key: string)

  /** Effects that reach storage or the cache channel, in the order they happen. */
  datatype Effect =
    | ConfigInserted(key: string)
    | ConfigUpdated(key: string)
    | MerchantUpdated(merchantId: string)
    | ProfileUpdated(profileId: string)
    | CachePublished(cacheKey: CacheKind)

  /** Which collaborator fails during one call: a lookup failing for a reason
      other than "not found", JSON encoding, a storage write, or the cache publish. */
  datatype Faults = Faults(readFails: bool, encodeFails: bool, writeFails: bool, publishFails: bool)

  /** The step named by the printable attached to an internal server error. */
  datatype FailedStep =
    | DefaultConfigInvalidStructure
    | SerializeNewDefaultConfig
    | InsertNewDefaultConfig
    | FetchDefaultConfig
    | SerializeDefaultConfigUpdate
    | UpdateDefaultConfig
    | SerializeDictionary
    | SaveDictionary
    | SerializeAlgorithm
    | UpdateAlgorithm
    | ConvertMerchantRef
    | UpdateMerchantRef
    | InvalidateConfigCache
    | ConvertProfileRef
    | UpdateProfileRef
    | InvalidateRoutingCache

  datatype RouterError = InternalServerError(step: FailedStep)

  // ---------------------------------------------------------------------------
  // The store

  class RoutingStore {
    var configs: map<string, ConfigValue>
    var merchants: map<string, MerchantAccount>
    var profiles: map<string, BusinessProfile>
    var effects: seq<Effect>

    constructor (configs: map<string, ConfigValue>, merchants: map<string, MerchantAccount>, profiles: map<string, BusinessProfile>)
      ensures this.configs == configs && this.merchants == merchants && this.profiles == profiles
      ensures effects == []
    {
      this.configs, this.merchants, this.profiles := configs, merchants, profiles;
      effects := [];
    }

    /** `get_merchant_default_config`: read the list; on "not found" create,
        persist and return an empty one; any other failure writes nothing. */
    method GetMerchantDefaultConfig(merchantId: string, transactionType: TransactionType, faults: Faults)
      returns (r: Result<seq<ConnectorChoice>, RouterError>)
      modifies this
      ensures merchants == old(merchants) && profiles == old(profiles)
      ensures var key := DefaultConfigKey(merchantId, transactionType);
        if faults.readFails then
          r == Err(InternalServerError(FetchDefaultConfig)) && unchanged(this)
        else if key in old(configs) then
          unchanged(this) &&
          r == (match old(configs)[key]
                case DefaultConnectors(cs) => Ok(cs)
                case _ => Err(InternalServerError(DefaultConfigInvalidStructure)))
        else if faults.encodeFails then
          r == Err(InternalServerError(SerializeNewDefaultConfig)) && unchanged(this)
        else if faults.writeFails then
          r == Err(InternalServerError(InsertNewDefaultConfig)) && unchanged(this)
        else
          r == Ok([]) && configs == old(configs)[key := DefaultConnectors([])]
          && effects == old(effects) + [ConfigInserted(key)]
    {
      var key := DefaultConfigKey(merchantId, transactionType);
      if faults.readFails {
        return Err(InternalServerError(FetchDefaultConfig));
      }
      if key in configs {
        match configs[key]
        case DefaultConnectors(cs) => return Ok(cs);
        case _ => return Err(InternalServerError(DefaultConfigInvalidStructure));
      }
      var created: seq<ConnectorChoice> := [];
      if faults.encodeFails {
        return Err(InternalServerError(SerializeNewDefaultConfig));
      }
      if faults.writeFails {
        return Err(InternalServerError(InsertNewDefaultConfig));
      }
      configs := configs[key := DefaultConnectors(created)];
      effects := effects + [ConfigInserted(key)];
      return Ok(created);
    }

    /** `update_config_by_key`: overwrite an existing row with a whole new value. */
    method UpdateConfigByKey(key: string, value: ConfigValue, writeFails: bool) returns (ok: bool)
      modifies this
      ensures ok <==> !writeFails && key in old(configs)
      ensures merchants == old(merchants) && profiles == old(profiles)
      ensures ok ==> configs == old(configs)[key := value] && effects == old(effects) + [ConfigUpdated(key)]
      ensures !ok ==> unchanged(this)
    {
      ok := !writeFails && key in configs;
      if ok {
        configs := configs[key := value];
        effects := effects + [ConfigUpdated(key)];
      }
    }

    /** `update_merchant_default_config`: overwrite the merchant's default list. */
    method UpdateMerchantDefaultConfig(merchantId: string, connectors: seq<ConnectorChoice>, transactionType: TransactionType, faults: Faults)
      returns (r: Outcome<RouterError>)
      modifies this
      ensures merchants == old(merchants) && profiles == old(profiles)
      ensures var key := DefaultConfigKey(merchantId, transactionType);
        if faults.encodeFails then r == Fail(InternalServerError(SerializeDefaultConfigUpdate)) && unchanged(this)
        else if faults.writeFails || key !in old(configs) then r == Fail(InternalServerError(UpdateDefaultConfig)) && unchanged(this)
        else r == Pass && configs == old(configs)[key := DefaultConnectors(connectors)]
             && effects == old(effects) + [ConfigUpdated(key)]
    {
      var key := DefaultConfigKey(merchantId, transactionType);
      if faults.encodeFails {
        return Fail(InternalServerError(SerializeDefaultConfigUpdate));
      }
      var ok := UpdateConfigByKey(key, DefaultConnectors(connectors), faults.writeFails);
      if !ok {
        return Fail(InternalServerError(UpdateDefaultConfig));
      }
      return Pass;
    }

    /** `update_merchant_routing_dictionary`: overwrite the whole dictionary (no merge). */
    method UpdateMerchantRoutingDictionary(merchantId: string, dictionary: RoutingDictionary, faults: Faults)
      returns (r: Outcome<RouterError>)
      modifies this
      ensures merchants == old(merchants) && profiles == old(profiles)
      ensures var key := RoutingDictionaryKey(merchantId);
        if faults.encodeFails then r == Fail(InternalServerError(SerializeDictionary)) && unchanged(this)
        else if faults.writeFails || key !in old(configs) then r == Fail(InternalServerError(SaveDictionary)) && unchanged(this)
        else r == Pass && configs == old(configs)[key := Dictionary(dictionary)]
             && effects == old(effects) + [ConfigUpdated(key)]
    {
      var key := RoutingDictionaryKey(merchantId);
      if faults.encodeFails {
        return Fail(InternalServerError(SerializeDictionary));
      }
      var ok := UpdateConfigByKey(key, Dictionary(dictionary), faults.writeFails);
      if !ok {
        return Fail(InternalServerError(SaveDictionary));
      }
      return Pass;
    }

    /** `update_routing_algorithm`: overwrite the algorithm stored under its own id. */
    method UpdateRoutingAlgorithm(algorithmId: string, algorithm: RoutingAlgorithm, faults: Faults)
      returns (r: Outcome<RouterError>)
      modifies this
      ensures merchants == old(merchants) && profiles == old(profiles)
      ensures if faults.encodeFails then r == Fail(InternalServerError(SerializeAlgorithm)) && unchanged(this)
        else if faults.writeFails || algorithmId !in old(configs) then r == Fail(InternalServerError(UpdateAlgorithm)) && unchanged(this)
        else r == Pass && configs == old(configs)[algorithmId := Algorithm(algorithm)]
             && effects == old(effects) + [ConfigUpdated(algorithmId)]
    {
      if faults.encodeFails {
        return Fail(InternalServerError(SerializeAlgorithm));
      }
      var ok := UpdateConfigByKey(algorithmId, Algorithm(algorithm), faults.writeFails);
      if !ok {
        return Fail(InternalServerError(UpdateAlgorithm));
      }
      return Pass;
    }

    /** `update_merchant_active_algorithm_ref`: set the merchant's payment
        routing reference, then publish `configKey` on the invalidation channel.
        A failed publish is reported although the write has happened. */
    method UpdateMerchantActiveAlgorithmRef(merchantId: string, configKey: CacheKind, algorithmRef: AlgorithmRef, faults: Faults)
      returns (r: Outcome<RouterError>)
      modifies this
      ensures configs == old(configs) && profiles == old(profiles)
      ensures if faults.encodeFails then r == Fail(InternalServerError(ConvertMerchantRef)) && unchanged(this)
        else if faults.writeFails || merchantId !in old(merchants) then
          r == Fail(InternalServerError(UpdateMerchantRef)) && unchanged(this)
        else
          && merchants == old(merchants)[merchantId := old(merchants)[merchantId].(routingAlgorithm := Some(algorithmRef))]
          && if faults.publishFails then
               r == Fail(InternalServerError(InvalidateConfigCache)) && effects == old(effects) + [MerchantUpdated(merchantId)]
             else
               r == Pass && effects == old(effects) + [MerchantUpdated(merchantId), CachePublished(configKey)]
    {
      if faults.encodeFails {
        return Fail(InternalServerError(ConvertMerchantRef));
      }
      if faults.writeFails || merchantId !in merchants {
        return Fail(InternalServerError(UpdateMerchantRef));
      }
      merchants := merchants[merchantId := merchants[merchantId].(routingAlgorithm := Some(algorithmRef))];
      effects := effects + [MerchantUpdated(merchantId)];
      if faults.publishFails {
        return Fail(InternalServerError(InvalidateConfigCache));
      }
      effects := effects + [CachePublished(configKey)];
      return Pass;
    }

    /** `update_business_profile_active_algorithm_ref`: set exactly one of the
        profile's payment or payout routing references, then publish the
        profile's routing cache key. */
    method UpdateBusinessProfileActiveAlgorithmRef(
      currentProfile: BusinessProfile, algorithmRef: AlgorithmRef, transactionType: TransactionType, faults: Faults)
      returns (r: Outcome<RouterError>)
      modifies this
      ensures configs == old(configs) && merchants == old(merchants)
      ensures var id := currentProfile.profileId;
        var cacheKey := RoutingCache(RoutingCacheKey(currentProfile.merchantId, id));
        if faults.encodeFails then r == Fail(InternalServerError(ConvertProfileRef)) && unchanged(this)
        else if faults.writeFails || id !in old(profiles) then
          r == Fail(InternalServerError(UpdateProfileRef)) && unchanged(this)
        else
          && id in profiles
          && profiles == old(profiles)[id := profiles[id]]
          && profiles[id].profileId == old(profiles)[id].profileId
          && profiles[id].merchantId == old(profiles)[id].merchantId
          && (transactionType == Payment ==>
                profiles[id].routingAlgorithm == Some(algorithmRef)
                && profiles[id].payoutRoutingAlgorithm == old(profiles)[id].payoutRoutingAlgorithm)
          && (transactionType == Payout ==>
                profiles[id].payoutRoutingAlgorithm == Some(algorithmRef)
                && profiles[id].routingAlgorithm == old(profiles)[id].routingAlgorithm)
          && if faults.publishFails then
               r == Fail(InternalServerError(InvalidateRoutingCache)) && effects == old(effects) + [ProfileUpdated(id)]
             else
               r == Pass && effects == old(effects) + [ProfileUpdated(id), CachePublished(cacheKey)]
    {
      if faults.encodeFails {
        return Fail(InternalServerError(ConvertProfileRef));
      }
      var id := currentProfile.profileId;
      var cacheKey := RoutingCache(RoutingCacheKey(currentProfile.merchantId, id));
      var (routing, payoutRouting) := match transactionType
        case Payment => (Some(algorithmRef), None)
        case Payout => (None, Some(algorithmRef));
      if faults.writeFails || id !in profiles {
        return Fail(InternalServerError(UpdateProfileRef));
      }
      profiles := profiles[id := ApplyProfileUpdate(profiles[id], routing, payoutRouting)];
      effects := effects + [ProfileUpdated(id)];
      if faults.publishFails {
        return Fail(InternalServerError(InvalidateRoutingCache));
      }
      effects := effects + [CachePublished(cacheKey)];
      return Pass;
    }
  }

  /** A profile update sets only the columns it carries a value for. */
  function ApplyProfileUpdate(p: BusinessProfile, routing: Option<AlgorithmRef>, payoutRouting: Option<AlgorithmRef>): (q: BusinessProfile)
    ensures q.profileId == p.profileId && q.merchantId == p.merchantId
    ensures q.routingAlgorithm == if routing.Some? then routing else p.routingAlgorithm
    ensures q.payoutRoutingAlgorithm == if payoutRouting.Some? then payoutRouting else p.payoutRoutingAlgorithm
  {
    p.(routingAlgorithm := if routing.Some? then routing else p.routingAlgorithm,
       payoutRoutingAlgorithm := if payoutRouting.Some? then payoutRouting else p.payoutRoutingAlgorithm)
  }

  /** Get-or-create is idempotent: a second read with no update in between
      returns the list the first read persisted and writes nothing more. */
  method GetOrCreateTwice(store: RoutingStore, merchantId: string, transactionType: TransactionType)
    returns (first: Result<seq<ConnectorChoice>, RouterError>, second: Result<seq<ConnectorChoice>, RouterError>)
    requires DefaultConfigKey(merchantId, transactionType) !in store.configs
    modifies store
    ensures first == Ok([]) && second == first
    ensures var key := DefaultConfigKey(merchantId, transactionType);
      store.configs == old(store.configs)[key := DefaultConnectors([])]
      && store.effects == old(store.effects) + [ConfigInserted(key)]
  {
    var none := Faults(false, false, false, false);
    first := store.GetMerchantDefaultConfig(merchantId, transactionType, none);
    second := store.GetMerchantDefaultConfig(merchantId, transactionType, none);
  }
}
