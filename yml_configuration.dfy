/**
 * `YmlConfiguration`: the agent's top-level configuration as read from YAML,
 * validated on construction. Absent values arrive as null (None here).
 */
module YmlConfiguration {
  import opened Wrappers
  import opened JavaLang
  import Validate

  /** The configuration of one miner: parameter name to value. */
  type MinerConfig = map<string, string>

  /** The miner families that have a list of their own in the configuration. */
  datatype Family = Antminer | Bminer | Ccminer | Claymore | Dstm | Ewbf | Excavator | Phoenix | Xmrig {
    /** The YAML key the family's list is read from; no other family has it. */
    function Key(): (k: string)
      ensures FamilyOfKey(k) == Some(this)
    {
      match this
      case Antminer => "antminers"
      case Bminer => "bminers"
      case Ccminer => "ccminers"
      case Claymore => "claymores"
      case Dstm => "dstms"
      case Ewbf => "ewbfs"
      case Excavator => "excavators"
      case Phoenix => "phoenix"
      case Xmrig => "xmrigs"
    }
  }

  /** The family whose list a YAML key holds, if any. */
  function FamilyOfKey(key: string): Option<Family>
  {
    match key
    case "antminers" => Some(Antminer)
    case "bminers" => Some(Bminer)
    case "ccminers" => Some(Ccminer)
    case "claymores" => Some(Claymore)
    case "dstms" => Some(Dstm)
    case "ewbfs" => Some(Ewbf)
    case "excavators" => Some(Excavator)
    case "phoenix" => Some(Phoenix)
    case "xmrigs" => Some(Xmrig)
    case _ => None
  }

  /**
   * The constructor's arguments as bound from the YAML document: the scalar
   * properties, and the per-family lists under their keys (a key that is
   * absent or null has no entry).
   */
  datatype Properties = Properties(
    foremanApiUrl: Option<string>,
    apiKey: Option<string>,
    lists: map<string, seq<MinerConfig>>,
    pollFrequencyInSeconds: Int32)
  {
    /** The list bound to the family's parameter: the one under its key, or null. */
    function Supplied(family: Family): (r: Option<seq<MinerConfig>>)
      ensures r.Some? <==> family.Key() in lists
      ensures r.Some? ==> r.value == lists[family.Key()]
    {
      if family.Key() in lists then Some(lists[family.Key()]) else None
    }
  }

  /** A validated configuration; the scalar getters are the scalar fields. */
  datatype Configuration = Configuration(
    foremanApiUrl: string,
    apiKey: string,
    antConfigs: seq<MinerConfig>,
    bminerConfigs: seq<MinerConfig>,
    ccminerConfigs: seq<MinerConfig>,
    claymoreConfigs: seq<MinerConfig>,
    dstmConfigs: seq<MinerConfig>,
    ewbfConfigs: seq<MinerConfig>,
    excavatorConfigs: seq<MinerConfig>,
    phoenixConfigs: seq<MinerConfig>,
    xmrigConfigs: seq<MinerConfig>,
    pollFrequencyInSeconds: Int32)
  {
    /** The family getters: `getAntminerConfigs`, `getBminerConfigs`, ... */
    function Configs(family: Family): (r: seq<MinerConfig>)
      ensures family == Antminer ==> r == antConfigs
      ensures family == Bminer ==> r == bminerConfigs
      ensures family == Ccminer ==> r == ccminerConfigs
      ensures family == Claymore ==> r == claymoreConfigs
      ensures family == Dstm ==> r == dstmConfigs
      ensures family == Ewbf ==> r == ewbfConfigs
      ensures family == Excavator ==> r == excavatorConfigs
      ensures family == Phoenix ==> r == phoenixConfigs
      ensures family == Xmrig ==> r == xmrigConfigs
    {
      match family
      case Antminer => antConfigs
      case Bminer => bminerConfigs
      case Ccminer => ccminerConfigs
      case Claymore => claymoreConfigs
      case Dstm => dstmConfigs
      case Ewbf => ewbfConfigs
      case Excavator => excavatorConfigs
      case Phoenix => phoenixConfigs
      case Xmrig => xmrigConfigs
    }
  }

  const URL_EMPTY: string := "foremanApiUrl cannot be empty"
  const API_KEY_EMPTY: string := "apiKey cannot be empty"
  const POLL_FREQUENCY_NEGATIVE: string := "pollFrequencyInSeconds must be positive"

  /** `toConfigs`: a copy of the list, or the empty list for null. */
  function ToConfigs(configs: Option<seq<MinerConfig>>): (r: seq<MinerConfig>)
    ensures configs.None? ==> r == []
    ensures configs.Some? ==> r == configs.value
  {
    match configs
    case None => []
    case Some(list) => list
  }

  predicate NonEmpty(s: Option<string>)
  {
    s.Some? && s.value != []
  }

  /**
   * The constructor: the URL, then the API key, must be non-null and
   * non-empty, and the poll frequency must not be negative; each family's
   * getter then returns the list supplied under that family's own key,
   * copied, a missing one becoming empty.
   */
  function NewConfiguration(p: Properties): (r: Result<Configuration, Exception>)
    ensures r.Ok? <==>
            NonEmpty(p.foremanApiUrl) && NonEmpty(p.apiKey) && p.pollFrequencyInSeconds >= 0
    ensures !NonEmpty(p.foremanApiUrl) ==>
            r == Err(if p.foremanApiUrl.None? then NullPointer(URL_EMPTY) else IllegalArgument(URL_EMPTY))
    ensures NonEmpty(p.foremanApiUrl) && !NonEmpty(p.apiKey) ==>
            r == Err(if p.apiKey.None? then NullPointer(API_KEY_EMPTY) else IllegalArgument(API_KEY_EMPTY))
    ensures NonEmpty(p.foremanApiUrl) && NonEmpty(p.apiKey) && p.pollFrequencyInSeconds < 0 ==>
            r == Err(IllegalArgument(POLL_FREQUENCY_NEGATIVE))
    ensures r.Ok? ==> Some(r.value.foremanApiUrl) == p.foremanApiUrl && Some(r.value.apiKey) == p.apiKey
    ensures r.Ok? ==> r.value.pollFrequencyInSeconds == p.pollFrequencyInSeconds
    ensures r.Ok? ==> forall family :: r.value.Configs(family) == ToConfigs(p.Supplied(family))
  {
    var urlCheck := Validate.NotEmpty(p.foremanApiUrl, URL_EMPTY);
    var apiKeyCheck := Validate.NotEmpty(p.apiKey, API_KEY_EMPTY);
    var pollCheck := Validate.InclusiveBetween(0, INT_MAX, p.pollFrequencyInSeconds, POLL_FREQUENCY_NEGATIVE);
    if urlCheck.Fail? then Err(urlCheck.error)
    else if apiKeyCheck.Fail? then Err(apiKeyCheck.error)
    else if pollCheck.Fail? then Err(pollCheck.error)
    else Ok(Configuration(
      p.foremanApiUrl.value,
      p.apiKey.value,
      ToConfigs(p.Supplied(Antminer)),
      ToConfigs(p.Supplied(Bminer)),
      ToConfigs(p.Supplied(Ccminer)),
      ToConfigs(p.Supplied(Claymore)),
      ToConfigs(p.Supplied(Dstm)),
      ToConfigs(p.Supplied(Ewbf)),
      ToConfigs(p.Supplied(Excavator)),
      ToConfigs(p.Supplied(Phoenix)),
      ToConfigs(p.Supplied(Xmrig)),
      p.pollFrequencyInSeconds))
  }

  /**
   * Each family getter answers only for its own key: replacing or adding the
   * list under any other key leaves that getter's result unchanged.
   */
  lemma GetterReadsOnlyOwnKey(p: Properties, family: Family, key: string, list: seq<MinerConfig>)
    requires NewConfiguration(p).Ok? && key != family.Key()
    ensures NewConfiguration(p.(lists := p.lists[key := list])).Ok?
    ensures NewConfiguration(p.(lists := p.lists[key := list])).value.Configs(family) ==
            NewConfiguration(p).value.Configs(family)
  {
  }

  /** A poll frequency of zero is accepted, despite the message's "positive". */
  lemma ZeroPollFrequencyAccepted(p: Properties)
    requires NonEmpty(p.foremanApiUrl) && NonEmpty(p.apiKey) && p.pollFrequencyInSeconds == 0
    ensures NewConfiguration(p).Ok?
  {
  }
}
