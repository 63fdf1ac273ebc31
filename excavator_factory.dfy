/**
 * `ExcavatorFactory`: makes an excavator miner from its configuration map,
 * reading its name, address and port.
 */
module ExcavatorFactory {
  import opened Wrappers
  import opened JavaLang

  const NAME_KEY: string := "name"
  const API_IP_KEY: string := "apiIp"
  const API_PORT_KEY: string := "apiPort"

  /** What the factory hands to the `Excavator` constructor; a name or address may be null. */
  datatype Excavator = Excavator(name: Option<string>, apiIp: Option<string>, apiPort: Int32)

  /** `Map.get`: the value under the key, or null when there is none. */
  function Get(config: map<string, string>, key: string): (r: Option<string>)
    ensures r.Some? <==> key in config
    ensures r.Some? ==> r.value == config[key]
  {
    if key in config then Some(config[key]) else None
  }

  /**
   * `create`: the name and address are taken as they are; the port is parsed
   * by `Integer.parseInt`, whose `NumberFormatException` escapes.
   */
  function Create(config: map<string, string>): (r: Result<Excavator, Exception>)
    ensures r.Ok? <==> API_PORT_KEY in config && ParseInt(Some(config[API_PORT_KEY])).Ok?
    ensures API_PORT_KEY !in config ==> r == Err(NumberFormat(None))
    ensures r.Err? ==> r.error == NumberFormat(Get(config, API_PORT_KEY))
    ensures r.Ok? ==> r.value.name == Get(config, NAME_KEY) && r.value.apiIp == Get(config, API_IP_KEY)
    ensures r.Ok? ==> ParseInt(Get(config, API_PORT_KEY)) == Ok(r.value.apiPort)
  {
    var name := Get(config, NAME_KEY);
    var apiIp := Get(config, API_IP_KEY);
    var apiPort :- ParseInt(Get(config, API_PORT_KEY));
    Ok(Excavator(name, apiIp, apiPort))
  }

  /** Only the three keys are read: maps that agree on them give the same result. */
  lemma CreateReadsOnlyItsKeys(c1: map<string, string>, c2: map<string, string>)
    requires Get(c1, NAME_KEY) == Get(c2, NAME_KEY)
    requires Get(c1, API_IP_KEY) == Get(c2, API_IP_KEY)
    requires Get(c1, API_PORT_KEY) == Get(c2, API_PORT_KEY)
    ensures Create(c1) == Create(c2)
  {
  }

  /**
   * A configuration naming the port in its canonical decimal form creates an
   * excavator bound to exactly that name, address and port, whatever else the
   * map holds; a port outside the range of `int` is refused.
   */
  lemma CreateFromCanonicalPort(extra: map<string, string>, name: string, apiIp: string, port: int)
    ensures var config := extra[NAME_KEY := name][API_IP_KEY := apiIp][API_PORT_KEY := ToDecimal(port)];
            Create(config) ==
              if INT_MIN <= port <= INT_MAX then Ok(Excavator(Some(name), Some(apiIp), port))
              else Err(NumberFormat(Some(ToDecimal(port))))
  {
    ParseToDecimal(port);
  }

  /** A port with a character that is not a digit (other than a leading sign) is refused. */
  lemma CreateRejectsNonNumericPort(config: map<string, string>, i: nat)
    requires API_PORT_KEY in config && i < |config[API_PORT_KEY]|
    requires !IsDigit(config[API_PORT_KEY][i])
    requires i == 0 ==> !IsSign(config[API_PORT_KEY][0]) || |config[API_PORT_KEY]| == 1
    ensures Create(config) == Err(NumberFormat(Some(config[API_PORT_KEY])))
  {
  }
}
