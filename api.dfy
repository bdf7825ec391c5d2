/**
 * The API plugin, `casaba/plugins/api_001.py`: its parameter table, its one
 * sequence, and the step function `create_hieradata`, which copies
 * configuration values into the shared hiera options table
 * (`API_GLOBAL_OPTIONS`, an insertion-ordered dict) and turns the memcache
 * server string into a list in the value store.
 *
 * The writes are described by a plan, a list of steps run in order until
 * the first one that raises; the method does the same writes one statement
 * at a time, as the source does.
 */
module Api {

  import opened Outcomes
  import opened PyStr
  import opened ODicts
  import opened Values
  import opened Keys
  import Registry

  // Value-store keys read only here.
  const ENABLE_INSTALL_API := "CONFIG_ENABLE_INSTALL_API"
  const MONITOR_HOST := "CONFIG_MONITOR_HOST"
  const ENABLE_VPN_AGENT := "CONFIG_ENABLE_VPN_AGENT"
  const ENABLE_FWAAS_AGENT := "CONFIG_ENABLE_FWAAS_AGENT"
  const ENABLE_LBAAS_AGENT := "CONFIG_ENABLE_LBAAS_AGENT"
  const HORIZON_INSTALL := "CONFIG_HORIZON_INSTALL"
  const HEAT_INSTALL := "CONFIG_HEAT_INSTALL"
  const GNOCCHI_INSTALL := "CONFIG_GNOCCHI_INSTALL"
  const AODH_INSTALL := "CONFIG_AODH_INSTALL"
  const CEILOMETER_INSTALL := "CONFIG_CEILOMETER_INSTALL"
  const SWIFT_INSTALL := "CONFIG_SWIFT_INSTALL"
  const TROVE_INSTALL := "CONFIG_TROVE_INSTALL"
  const NOVA_INSTALL := "CONFIG_NOVA_INSTALL"
  const GLANCE_INSTALL := "CONFIG_GLANCE_INSTALL"
  const CINDER_INSTALL := "CONFIG_CINDER_INSTALL"
  const NEUTRON_INSTALL := "CONFIG_NEUTRON_INSTALL"

  // Hiera option keys.
  const CONTROLLER_INSTALL_API := "sunfire::controller::enable_install_api"
  const CONTROLLER_MEMBERS := "sunfire::controller::cluster_members"
  const API_INSTALL_API := "sunfire::api::enable_install_api"
  const API_MEMBERS := "sunfire::api::cluster_members"
  const API_ENABLE_HA := "sunfire::api::enable_ha"
  const MON_HOSTS := "sunfire::storage::ceph::client::mon_hosts"
  const VPN_AGENT := "sunfire::openstack::neutron_controller::enable_vpn_agent"
  const FWAAS_AGENT := "sunfire::openstack::neutron_network::enable_fwaas_agent"
  const LBAAS_AGENT := "sunfire::openstack::neutron_network::enable_lbaas_agent"
  const ENABLE_HORIZON := "sunfire::api::enable_horizon"
  const ENABLE_HEAT := "sunfire::api::enable_heat"
  const ENABLE_GNOCCHI := "sunfire::api::enable_gnocchi"
  const ENABLE_AODH := "sunfire::api::enable_aodh"
  const ENABLE_CEILOMETER := "sunfire::api::enable_ceilometer"
  const ENABLE_CEILOMETER_CENTRAL := "sunfire::api::enable_ceilometer_central"
  const ENABLE_SWIFT := "sunfire::api::enable_swift"
  const ENABLE_TROVE := "sunfire::api::enable_trove"
  const ENABLE_NOVA := "sunfire::api::enable_nova"
  const ENABLE_GLANCE := "sunfire::api::enable_glance"
  const ENABLE_CINDER := "sunfire::api::enable_cinder"
  const ENABLE_CINDER_VOLUME := "sunfire::api::enable_cinder_volume"
  const ENABLE_NEUTRON := "sunfire::api::enable_neutron"
  const SYSTEMD_HA := "sunfire::api::enable_systemd_ha"

  // ---------------------------------------------------------------- the plan

  /** One write of create_hieradata: copy a configuration value into an
      option, set an option to a constant, or pass a configuration value
      through `change_str_to_list`, which may raise. */
  datatype Step =
    | Copy(option: string, confKey: string)
    | Fix(option: string, value: Value)
    | Relist(confKey: string)

  /** The value store, the options table, and the error raised, if any. */
  datatype Run = Run(conf: ODict<Value>, opts: ODict<Value>, err: Option<Error>)

  /** The installation and cluster keys: the `controller::` ones and HA on
      for an HA install, the `api::` ones and HA off otherwise. */
  function HaSteps(ha: bool): seq<Step> {
    if ha then
      [Copy(CONTROLLER_INSTALL_API, ENABLE_INSTALL_API),
       Copy(CONTROLLER_MEMBERS, CLUSTER_MEMBERS),
       Fix(API_ENABLE_HA, Bool(true))]
    else
      [Copy(API_INSTALL_API, ENABLE_INSTALL_API),
       Copy(API_MEMBERS, CLUSTER_MEMBERS),
       Fix(API_ENABLE_HA, Bool(false))]
  }

  /** Lines 171-174: the ceph monitors and the network agents. */
  const AGENT_STEPS: seq<Step> := [
    Copy(MON_HOSTS, MONITOR_HOST),
    Copy(VPN_AGENT, ENABLE_VPN_AGENT),
    Copy(FWAAS_AGENT, ENABLE_FWAAS_AGENT),
    Copy(LBAAS_AGENT, ENABLE_LBAAS_AGENT)]

  /** Lines 175-180: dashboard, orchestration and telemetry; both ceilometer
      switches follow the one ceilometer setting. */
  const TELEMETRY_STEPS: seq<Step> := [
    Copy(ENABLE_HORIZON, HORIZON_INSTALL),
    Copy(ENABLE_HEAT, HEAT_INSTALL),
    Copy(ENABLE_GNOCCHI, GNOCCHI_INSTALL),
    Copy(ENABLE_AODH, AODH_INSTALL),
    Copy(ENABLE_CEILOMETER, CEILOMETER_INSTALL),
    Copy(ENABLE_CEILOMETER_CENTRAL, CEILOMETER_INSTALL)]

  /** Lines 181-184: object storage, databases, compute and images. */
  const CORE_STEPS: seq<Step> := [
    Copy(ENABLE_SWIFT, SWIFT_INSTALL),
    Copy(ENABLE_TROVE, TROVE_INSTALL),
    Copy(ENABLE_NOVA, NOVA_INSTALL),
    Copy(ENABLE_GLANCE, GLANCE_INSTALL)]

  /** Lines 185-187: block storage and networking; both cinder switches
      follow the one cinder setting. */
  const STORAGE_STEPS: seq<Step> := [
    Copy(ENABLE_CINDER, CINDER_INSTALL),
    Copy(ENABLE_CINDER_VOLUME, CINDER_INSTALL),
    Copy(ENABLE_NEUTRON, NEUTRON_INSTALL)]

  /** The systemd HA switch, only written on an HA install. */
  function SystemdSteps(ha: bool): seq<Step> {
    if ha then [Fix(SYSTEMD_HA, Bool(true))] else []
  }

  /** Every write of create_hieradata, in source order. */
  function ApiPlan(ha: bool): seq<Step> {
    HaSteps(ha) + (AGENT_STEPS + (TELEMETRY_STEPS + (CORE_STEPS + (STORAGE_STEPS + ([Relist(MEMCACHE_SERVERS)] + SystemdSteps(ha))))))
  }

  /** One step.  Reading a missing configuration key raises KeyError before
      anything is written; so does the processor raising on the entry. */
  function StepResult(conf: ODict<Value>, opts: ODict<Value>, s: Step, relist: Value -> Result<Value>): (r: Run)
    requires conf.Valid() && opts.Valid()
    ensures r.conf.Valid() && r.opts.Valid()
  {
    match s
    case Copy(o, k) =>
      if k in conf.vals then Run(conf, opts.Put(o, conf.vals[k]), None) else Run(conf, opts, Some(KeyError(k)))
    case Fix(o, v) => Run(conf, opts.Put(o, v), None)
    case Relist(k) =>
      if k !in conf.vals then Run(conf, opts, Some(KeyError(k)))
      else match relist(conf.vals[k])
        case Ok(w) => Run(conf.Put(k, w), opts, None)
        case Err(e) => Run(conf, opts, Some(e))
  }

  /** The steps in order, stopping at the first that raises; the writes
      before it stay. */
  function RunPlan(conf: ODict<Value>, opts: ODict<Value>, steps: seq<Step>, relist: Value -> Result<Value>): (r: Run)
    requires conf.Valid() && opts.Valid()
    ensures r.conf.Valid() && r.opts.Valid()
    decreases |steps|
  {
    if steps == [] then Run(conf, opts, None)
    else
      var r := StepResult(conf, opts, steps[0], relist);
      if r.err.Some? then r else RunPlan(r.conf, r.opts, steps[1..], relist)
  }

  /** What `create_hieradata(config, message)` leaves in the value store
      and the options table, and the error it raises, if any.  It first
      needs `len(config['CONFIG_CONTROLLER_HOST'])`. */
  function Hieradata(conf: ODict<Value>, opts: ODict<Value>, relist: Value -> Result<Value>): (r: Run)
    requires conf.Valid() && opts.Valid()
    ensures r.conf.Valid() && r.opts.Valid()
  {
    match Lookup(conf, CONTROLLER_HOST)
    case Err(e) => Run(conf, opts, Some(e))
    case Ok(h) =>
      match Len(h, CONTROLLER_HOST)
      case Err(e) => Run(conf, opts, Some(e))
      case Ok(n) => RunPlan(conf, opts, ApiPlan(n == 3), relist)
  }

  // ---------------------------------------------------------------- the method
  //
  // Each write is a helper that performs the step `[s] + tail` begins with,
  // on the way to `goal`, the outcome of the whole plan: `goal` is the run
  // of `tail` from the new state, or the new state itself once the step has
  // raised.

  /** Running `[s] + tail` runs `s`, then `tail` unless `s` raised. */
  lemma RunCons(conf: ODict<Value>, opts: ODict<Value>, s: Step, tail: seq<Step>, relist: Value -> Result<Value>)
    requires conf.Valid() && opts.Valid()
    ensures var r := StepResult(conf, opts, s, relist);
      RunPlan(conf, opts, [s] + tail, relist) == if r.err.Some? then r else RunPlan(r.conf, r.opts, tail, relist)
  {
    assert ([s] + tail)[0] == s && ([s] + tail)[1..] == tail;
  }

  // Peeling the first steps off a block, element by element.

  lemma Cons3<T>(a: T, b: T, c: T, rest: seq<T>)
    ensures [a, b, c] + rest == [a] + ([b] + ([c] + rest))
  {
  }

  lemma Cons4<T>(a: T, b: T, c: T, d: T, rest: seq<T>)
    ensures [a, b, c, d] + rest == [a] + ([b] + ([c] + ([d] + rest)))
  {
  }

  lemma Cons6<T>(a: T, b: T, c: T, d: T, e: T, f: T, rest: seq<T>)
    ensures [a, b, c, d, e, f] + rest == [a] + ([b] + ([c] + ([d] + ([e] + ([f] + rest)))))
  {
  }

  /** `options[option] = config[key]` */
  method CopyOption(config: Store, options: Store, option: string, key: string,
                    ghost goal: Run, ghost tail: seq<Step>, ghost relist: Value -> Result<Value>)
    returns (err: Option<Error>)
    requires config != options && config.Valid() && options.Valid()
    requires goal == RunPlan(config.items, options.items, [Copy(option, key)] + tail, relist)
    modifies options
    ensures config.Valid() && options.Valid() && config.items == old(config.items)
    ensures err.Some? <==> key !in config.items.vals
    ensures err.Some? ==> goal == Run(config.items, options.items, err) && err == Some(KeyError(key))
    ensures err.None? ==> goal == RunPlan(config.items, options.items, tail, relist)
  {
    RunCons(config.items, options.items, Copy(option, key), tail, relist);
    if key !in config.items.vals {
      return Some(KeyError(key));
    }
    options.Set(option, config.items.vals[key]);
    err := None;
  }

  /** `options[option] = value` */
  method SetOption(config: Store, options: Store, option: string, value: Value,
                   ghost goal: Run, ghost tail: seq<Step>, ghost relist: Value -> Result<Value>)
    requires config != options && config.Valid() && options.Valid()
    requires goal == RunPlan(config.items, options.items, [Fix(option, value)] + tail, relist)
    modifies options
    ensures config.Valid() && options.Valid() && config.items == old(config.items)
    ensures options.items.Get(option) == Some(value)
    ensures goal == RunPlan(config.items, options.items, tail, relist)
  {
    RunCons(config.items, options.items, Fix(option, value), tail, relist);
    options.Set(option, value);
  }

  /** `config[key] = change_str_to_list(config[key])` */
  method RelistEntry(config: Store, options: Store, key: string,
                     ghost goal: Run, ghost tail: seq<Step>, relist: Value -> Result<Value>)
    returns (err: Option<Error>)
    requires config != options && config.Valid() && options.Valid()
    requires goal == RunPlan(config.items, options.items, [Relist(key)] + tail, relist)
    modifies config
    ensures config.Valid() && options.Valid() && options.items == old(options.items)
    ensures forall k :: k != key ==> config.items.Get(k) == old(config.items).Get(k)
    ensures err.Some? <==> key !in old(config.items).vals || relist(old(config.items).vals[key]).Err?
    ensures key !in old(config.items).vals ==> err == Some(KeyError(key))
    ensures key in old(config.items).vals && relist(old(config.items).vals[key]).Err? ==>
      err == Some(relist(old(config.items).vals[key]).error)
    ensures err.Some? ==> goal == Run(config.items, options.items, err) && config.items == old(config.items)
    ensures err.None? ==> config.items.Get(key) == Some(relist(old(config.items).vals[key]).value)
    ensures err.None? ==> goal == RunPlan(config.items, options.items, tail, relist)
  {
    RunCons(config.items, options.items, Relist(key), tail, relist);
    if key !in config.items.vals {
      return Some(KeyError(key));
    }
    var processed := relist(config.items.vals[key]);
    match processed {
      case Err(e) =>
        return Some(e);
      case Ok(w) =>
        config.Set(key, w);
        err := None;
    }
  }

  /** Lines 162-169: the installation and cluster keys and the HA flag. */
  method WriteHaOptions(config: Store, options: Store, ha: bool, ghost goal: Run, ghost rest: seq<Step>, ghost relist: Value -> Result<Value>)
    returns (err: Option<Error>)
    requires config != options && config.Valid() && options.Valid()
    requires goal == RunPlan(config.items, options.items, HaSteps(ha) + rest, relist)
    modifies options
    ensures config.Valid() && options.Valid() && config.items == old(config.items)
    ensures err.Some? ==> goal == Run(config.items, options.items, err)
    ensures err.None? ==> goal == RunPlan(config.items, options.items, rest, relist)
  {
    if ha {
      ghost var t2 := [Fix(API_ENABLE_HA, Bool(true))] + rest;
      ghost var t1 := [Copy(CONTROLLER_MEMBERS, CLUSTER_MEMBERS)] + t2;
      Cons3(Copy(CONTROLLER_INSTALL_API, ENABLE_INSTALL_API), Copy(CONTROLLER_MEMBERS, CLUSTER_MEMBERS), Fix(API_ENABLE_HA, Bool(true)), rest);
      err := CopyOption(config, options, CONTROLLER_INSTALL_API, ENABLE_INSTALL_API, goal, t1, relist);
      if err.Some? { return; }
      err := CopyOption(config, options, CONTROLLER_MEMBERS, CLUSTER_MEMBERS, goal, t2, relist);
      if err.Some? { return; }
      SetOption(config, options, API_ENABLE_HA, Bool(true), goal, rest, relist);
    } else {
      ghost var t2 := [Fix(API_ENABLE_HA, Bool(false))] + rest;
      ghost var t1 := [Copy(API_MEMBERS, CLUSTER_MEMBERS)] + t2;
      Cons3(Copy(API_INSTALL_API, ENABLE_INSTALL_API), Copy(API_MEMBERS, CLUSTER_MEMBERS), Fix(API_ENABLE_HA, Bool(false)), rest);
      err := CopyOption(config, options, API_INSTALL_API, ENABLE_INSTALL_API, goal, t1, relist);
      if err.Some? { return; }
      err := CopyOption(config, options, API_MEMBERS, CLUSTER_MEMBERS, goal, t2, relist);
      if err.Some? { return; }
      SetOption(config, options, API_ENABLE_HA, Bool(false), goal, rest, relist);
    }
  }

  /** Lines 171-174: the ceph monitors and the network agents. */
  method WriteAgentOptions(config: Store, options: Store, ghost goal: Run, ghost rest: seq<Step>, ghost relist: Value -> Result<Value>)
    returns (err: Option<Error>)
    requires config != options && config.Valid() && options.Valid()
    requires goal == RunPlan(config.items, options.items, AGENT_STEPS + rest, relist)
    modifies options
    ensures config.Valid() && options.Valid() && config.items == old(config.items)
    ensures err.Some? ==> goal == Run(config.items, options.items, err)
    ensures err.None? ==> goal == RunPlan(config.items, options.items, rest, relist)
  {
    ghost var t3 := [Copy(LBAAS_AGENT, ENABLE_LBAAS_AGENT)] + rest;
    ghost var t2 := [Copy(FWAAS_AGENT, ENABLE_FWAAS_AGENT)] + t3;
    ghost var t1 := [Copy(VPN_AGENT, ENABLE_VPN_AGENT)] + t2;
    Cons4(Copy(MON_HOSTS, MONITOR_HOST), Copy(VPN_AGENT, ENABLE_VPN_AGENT), Copy(FWAAS_AGENT, ENABLE_FWAAS_AGENT), Copy(LBAAS_AGENT, ENABLE_LBAAS_AGENT), rest);
    err := CopyOption(config, options, MON_HOSTS, MONITOR_HOST, goal, t1, relist);
    if err.Some? { return; }
    err := CopyOption(config, options, VPN_AGENT, ENABLE_VPN_AGENT, goal, t2, relist);
    if err.Some? { return; }
    err := CopyOption(config, options, FWAAS_AGENT, ENABLE_FWAAS_AGENT, goal, t3, relist);
    if err.Some? { return; }
    err := CopyOption(config, options, LBAAS_AGENT, ENABLE_LBAAS_AGENT, goal, rest, relist);
  }

  /** Lines 175-180: dashboard, orchestration and telemetry. */
  method WriteTelemetryOptions(config: Store, options: Store, ghost goal: Run, ghost rest: seq<Step>, ghost relist: Value -> Result<Value>)
    returns (err: Option<Error>)
    requires config != options && config.Valid() && options.Valid()
    requires goal == RunPlan(config.items, options.items, TELEMETRY_STEPS + rest, relist)
    modifies options
    ensures config.Valid() && options.Valid() && config.items == old(config.items)
    ensures err.Some? ==> goal == Run(config.items, options.items, err)
    ensures err.None? ==> goal == RunPlan(config.items, options.items, rest, relist)
  {
    ghost var t5 := [Copy(ENABLE_CEILOMETER_CENTRAL, CEILOMETER_INSTALL)] + rest;
    ghost var t4 := [Copy(ENABLE_CEILOMETER, CEILOMETER_INSTALL)] + t5;
    ghost var t3 := [Copy(ENABLE_AODH, AODH_INSTALL)] + t4;
    ghost var t2 := [Copy(ENABLE_GNOCCHI, GNOCCHI_INSTALL)] + t3;
    ghost var t1 := [Copy(ENABLE_HEAT, HEAT_INSTALL)] + t2;
    Cons6(Copy(ENABLE_HORIZON, HORIZON_INSTALL), Copy(ENABLE_HEAT, HEAT_INSTALL), Copy(ENABLE_GNOCCHI, GNOCCHI_INSTALL),
          Copy(ENABLE_AODH, AODH_INSTALL), Copy(ENABLE_CEILOMETER, CEILOMETER_INSTALL), Copy(ENABLE_CEILOMETER_CENTRAL, CEILOMETER_INSTALL), rest);
    err := CopyOption(config, options, ENABLE_HORIZON, HORIZON_INSTALL, goal, t1, relist);
    if err.Some? { return; }
    err := CopyOption(config, options, ENABLE_HEAT, HEAT_INSTALL, goal, t2, relist);
    if err.Some? { return; }
    err := CopyOption(config, options, ENABLE_GNOCCHI, GNOCCHI_INSTALL, goal, t3, relist);
    if err.Some? { return; }
    err := CopyOption(config, options, ENABLE_AODH, AODH_INSTALL, goal, t4, relist);
    if err.Some? { return; }
    err := CopyOption(config, options, ENABLE_CEILOMETER, CEILOMETER_INSTALL, goal, t5, relist);
    if err.Some? { return; }
    err := CopyOption(config, options, ENABLE_CEILOMETER_CENTRAL, CEILOMETER_INSTALL, goal, rest, relist);
  }

  /** Lines 181-184: object storage, databases, compute and images. */
  method WriteCoreOptions(config: Store, options: Store, ghost goal: Run, ghost rest: seq<Step>, ghost relist: Value -> Result<Value>)
    returns (err: Option<Error>)
    requires config != options && config.Valid() && options.Valid()
    requires goal == RunPlan(config.items, options.items, CORE_STEPS + rest, relist)
    modifies options
    ensures config.Valid() && options.Valid() && config.items == old(config.items)
    ensures err.Some? ==> goal == Run(config.items, options.items, err)
    ensures err.None? ==> goal == RunPlan(config.items, options.items, rest, relist)
  {
    ghost var t3 := [Copy(ENABLE_GLANCE, GLANCE_INSTALL)] + rest;
    ghost var t2 := [Copy(ENABLE_NOVA, NOVA_INSTALL)] + t3;
    ghost var t1 := [Copy(ENABLE_TROVE, TROVE_INSTALL)] + t2;
    Cons4(Copy(ENABLE_SWIFT, SWIFT_INSTALL), Copy(ENABLE_TROVE, TROVE_INSTALL), Copy(ENABLE_NOVA, NOVA_INSTALL), Copy(ENABLE_GLANCE, GLANCE_INSTALL), rest);
    err := CopyOption(config, options, ENABLE_SWIFT, SWIFT_INSTALL, goal, t1, relist);
    if err.Some? { return; }
    err := CopyOption(config, options, ENABLE_TROVE, TROVE_INSTALL, goal, t2, relist);
    if err.Some? { return; }
    err := CopyOption(config, options, ENABLE_NOVA, NOVA_INSTALL, goal, t3, relist);
    if err.Some? { return; }
    err := CopyOption(config, options, ENABLE_GLANCE, GLANCE_INSTALL, goal, rest, relist);
  }

  /** Lines 185-187: block storage and networking. */
  method WriteStorageOptions(config: Store, options: Store, ghost goal: Run, ghost rest: seq<Step>, ghost relist: Value -> Result<Value>)
    returns (err: Option<Error>)
    requires config != options && config.Valid() && options.Valid()
    requires goal == RunPlan(config.items, options.items, STORAGE_STEPS + rest, relist)
    modifies options
    ensures config.Valid() && options.Valid() && config.items == old(config.items)
    ensures err.Some? ==> goal == Run(config.items, options.items, err)
    ensures err.None? ==> goal == RunPlan(config.items, options.items, rest, relist)
  {
    ghost var t2 := [Copy(ENABLE_NEUTRON, NEUTRON_INSTALL)] + rest;
    ghost var t1 := [Copy(ENABLE_CINDER_VOLUME, CINDER_INSTALL)] + t2;
    Cons3(Copy(ENABLE_CINDER, CINDER_INSTALL), Copy(ENABLE_CINDER_VOLUME, CINDER_INSTALL), Copy(ENABLE_NEUTRON, NEUTRON_INSTALL), rest);
    err := CopyOption(config, options, ENABLE_CINDER, CINDER_INSTALL, goal, t1, relist);
    if err.Some? { return; }
    err := CopyOption(config, options, ENABLE_CINDER_VOLUME, CINDER_INSTALL, goal, t2, relist);
    if err.Some? { return; }
    err := CopyOption(config, options, ENABLE_NEUTRON, NEUTRON_INSTALL, goal, rest, relist);
  }

  /** `create_hieradata(config, message)`: `config` is the value store,
      `options` the shared `API_GLOBAL_OPTIONS` table, `relist` the
      processor `change_str_to_list`. */
  method CreateHieradata(config: Store, options: Store, relist: Value -> Result<Value>) returns (err: Option<Error>)
    requires config != options && config.Valid() && options.Valid()
    modifies config, options
    ensures config.Valid() && options.Valid()
    ensures Run(config.items, options.items, err) == Hieradata(old(config.items), old(options.items), relist)
  {
    if CONTROLLER_HOST !in config.items.vals {
      return Some(KeyError(CONTROLLER_HOST));
    }
    var count := Len(config.items.vals[CONTROLLER_HOST], CONTROLLER_HOST);
    if count.Err? {
      return Some(count.error);
    }
    var ha := count.value == 3;
    ghost var host := config.items.vals[CONTROLLER_HOST];
    ghost var goal := Hieradata(config.items, options.items, relist);
    ghost var rest5 := [Relist(MEMCACHE_SERVERS)] + SystemdSteps(ha);
    ghost var rest4 := STORAGE_STEPS + rest5;
    ghost var rest3 := CORE_STEPS + rest4;
    ghost var rest2 := TELEMETRY_STEPS + rest3;
    ghost var rest1 := AGENT_STEPS + rest2;
    assert ApiPlan(ha) == HaSteps(ha) + rest1;

    err := WriteHaOptions(config, options, ha, goal, rest1, relist);
    if err.Some? { return; }
    err := WriteAgentOptions(config, options, goal, rest2, relist);
    if err.Some? { return; }
    err := WriteTelemetryOptions(config, options, goal, rest3, relist);
    if err.Some? { return; }
    err := WriteCoreOptions(config, options, goal, rest4, relist);
    if err.Some? { return; }
    err := WriteStorageOptions(config, options, goal, rest5, relist);
    if err.Some? { return; }
    err := WriteMemcacheAndSystemd(config, options, ha, host, goal, relist);
  }

  /** Lines 188-191: the memcache servers become a list, then, with three
      controllers, the systemd HA switch is set; the controller count is
      read again, from the entry the rewrite left alone. */
  method WriteMemcacheAndSystemd(config: Store, options: Store, ha: bool, ghost host: Value, ghost goal: Run, relist: Value -> Result<Value>)
    returns (err: Option<Error>)
    requires config != options && config.Valid() && options.Valid()
    requires config.items.Get(CONTROLLER_HOST) == Some(host)
    requires Len(host, CONTROLLER_HOST).Ok? && ha == (Len(host, CONTROLLER_HOST).value == 3)
    requires goal == RunPlan(config.items, options.items, [Relist(MEMCACHE_SERVERS)] + SystemdSteps(ha), relist)
    modifies config, options
    ensures config.Valid() && options.Valid()
    ensures goal == Run(config.items, options.items, err)
  {
    err := RelistEntry(config, options, MEMCACHE_SERVERS, goal, SystemdSteps(ha), relist);
    if err.Some? { return; }
    // the systemd HA switch, on the controller count read again
    assert config.items.Get(CONTROLLER_HOST) == Some(host);
    if Len(config.items.vals[CONTROLLER_HOST], CONTROLLER_HOST) == Ok(3) {
      assert SystemdSteps(ha) == [Fix(SYSTEMD_HA, Bool(true))] + [];
      SetOption(config, options, SYSTEMD_HA, Bool(true), goal, [], relist);
    }
  }

  /** Running `p + q` runs `p`, then `q` unless `p` raised. */
  lemma {:induction false} PlanAppend(conf: ODict<Value>, opts: ODict<Value>, p: seq<Step>, q: seq<Step>, relist: Value -> Result<Value>)
    requires conf.Valid() && opts.Valid()
    ensures var r := RunPlan(conf, opts, p, relist);
      RunPlan(conf, opts, p + q, relist) == if r.err.Some? then r else RunPlan(r.conf, r.opts, q, relist)
    decreases |p|
  {
    if p == [] {
      assert p + q == q;
    } else {
      var r := StepResult(conf, opts, p[0], relist);
      assert (p + q)[0] == p[0] && (p + q)[1..] == p[1..] + q;
      if r.err.None? {
        PlanAppend(r.conf, r.opts, p[1..], q, relist);
      }
    }
  }

  // ---------------------------------------------------------------- what a plan does

  /** The option keys the steps write, in order. */
  function Written(steps: seq<Step>): seq<string> {
    if steps == [] then []
    else (if steps[0].Relist? then [] else [steps[0].option]) + Written(steps[1..])
  }

  /** The configuration keys the steps rewrite, in order. */
  function Relisted(steps: seq<Step>): seq<string> {
    if steps == [] then []
    else (if steps[0].Relist? then [steps[0].confKey] else []) + Relisted(steps[1..])
  }

  /** The configuration keys the steps copy into options, in order. */
  function Copied(steps: seq<Step>): seq<string> {
    if steps == [] then []
    else (if steps[0].Copy? then [steps[0].confKey] else []) + Copied(steps[1..])
  }

  /** Every configuration key the steps read, in order. */
  function Read(steps: seq<Step>): seq<string> {
    if steps == [] then []
    else (if steps[0].Fix? then [] else [steps[0].confKey]) + Read(steps[1..])
  }

  /** After the run `r` from the store `conf`, step `s` has had its effect:
      its option holds the value copied or set, or its entry holds the
      rewritten value. */
  ghost predicate Applied(conf: ODict<Value>, r: Run, s: Step, relist: Value -> Result<Value>) {
    match s
    case Copy(o, k) => k in conf.vals && r.opts.Get(o) == Some(conf.vals[k])
    case Fix(o, v) => r.opts.Get(o) == Some(v)
    case Relist(k) => k in conf.vals && relist(conf.vals[k]).Ok? && r.conf.Get(k) == Some(relist(conf.vals[k]).value)
  }

  /** Step `s` would write nothing new into `opts`: its option already holds
      what it would write, and the entry it reads is there. */
  ghost predicate InPlace(conf: ODict<Value>, opts: ODict<Value>, s: Step) {
    match s
    case Copy(o, k) => k in conf.vals && opts.Get(o) == Some(conf.vals[k])
    case Fix(o, v) => opts.Get(o) == Some(v)
    case Relist(k) => k in conf.vals
  }

  /** One step changes at most its own option, keeps the options it finds
      in front, and adds none if its option was there. */
  lemma StepOptions(conf: ODict<Value>, opts: ODict<Value>, s: Step, relist: Value -> Result<Value>)
    requires conf.Valid() && opts.Valid()
    ensures var r := StepResult(conf, opts, s, relist);
      (forall o :: (s.Relist? || o != s.option) ==> r.opts.Get(o) == opts.Get(o)) &&
      KeepsOrder(opts, r.opts) &&
      ((s.Relist? || s.option in opts.vals) ==> r.opts.keys == opts.keys)
  {
  }

  /** A plan changes no option it does not write, keeps the options it
      finds in front, and adds none if every option it writes was there. */
  lemma {:induction false} PlanOptionsFrame(conf: ODict<Value>, opts: ODict<Value>, steps: seq<Step>, relist: Value -> Result<Value>)
    requires conf.Valid() && opts.Valid()
    ensures var r := RunPlan(conf, opts, steps, relist);
      (forall o :: o !in Written(steps) ==> r.opts.Get(o) == opts.Get(o)) &&
      KeepsOrder(opts, r.opts) &&
      ((forall o :: o in Written(steps) ==> o in opts.vals) ==> r.opts.keys == opts.keys)
    decreases |steps|
  {
    if steps != [] {
      var r0 := StepResult(conf, opts, steps[0], relist);
      StepOptions(conf, opts, steps[0], relist);
      PlanCons(steps);
      if r0.err.None? {
        PlanOptionsFrame(r0.conf, r0.opts, steps[1..], relist);
        var r := RunPlan(r0.conf, r0.opts, steps[1..], relist);
        assert r == RunPlan(conf, opts, steps, relist);
        KeepsOrderTrans(opts, r0.opts, r.opts);
        if forall o :: o in Written(steps) ==> o in opts.vals {
          assert steps[0].Relist? || steps[0].option in opts.vals;
          assert forall o :: o in Written(steps[1..]) ==> o in r0.opts.vals;
        }
      }
    }
  }

  /** A plan changes no entry of the store it does not rewrite, and the
      store keeps its keys in their order. */
  lemma {:induction false} PlanConfFrame(conf: ODict<Value>, opts: ODict<Value>, steps: seq<Step>, relist: Value -> Result<Value>)
    requires conf.Valid() && opts.Valid()
    ensures var r := RunPlan(conf, opts, steps, relist);
      (forall k :: k !in Relisted(steps) ==> r.conf.Get(k) == conf.Get(k)) &&
      r.conf.keys == conf.keys
    decreases |steps|
  {
    if steps != [] {
      var r0 := StepResult(conf, opts, steps[0], relist);
      PlanCons(steps);
      if r0.err.None? {
        PlanConfFrame(r0.conf, r0.opts, steps[1..], relist);
      }
    }
  }

  /** The key lists of a plan are those of its first step followed by
      those of the rest. */
  lemma PlanCons(steps: seq<Step>)
    requires steps != []
    ensures Written(steps) == (if steps[0].Relist? then [] else [steps[0].option]) + Written(steps[1..])
    ensures Relisted(steps) == (if steps[0].Relist? then [steps[0].confKey] else []) + Relisted(steps[1..])
    ensures Copied(steps) == (if steps[0].Copy? then [steps[0].confKey] else []) + Copied(steps[1..])
    ensures Read(steps) == (if steps[0].Fix? then [] else [steps[0].confKey]) + Read(steps[1..])
    ensures forall x :: x in Written(steps[1..]) ==> x in Written(steps)
    ensures forall x :: x in Relisted(steps[1..]) ==> x in Relisted(steps)
    ensures forall x :: x in Copied(steps[1..]) ==> x in Copied(steps)
    ensures forall x :: x in Read(steps[1..]) ==> x in Read(steps)
  {
  }

  /** Every entry the steps read is in the store. */
  ghost predicate ReadsPresent(conf: ODict<Value>, steps: seq<Step>) {
    forall k :: k in Read(steps) ==> k in conf.vals
  }

  /** The processor returns a value for every entry the steps rewrite that
      is in the store. */
  ghost predicate Processes(conf: ODict<Value>, steps: seq<Step>, relist: Value -> Result<Value>) {
    forall k :: k in Relisted(steps) && k in conf.vals ==> relist(conf.vals[k]).Ok?
  }

  /** The error is the processor's on an entry the steps rewrite. */
  ghost predicate ProcessorError(conf: ODict<Value>, steps: seq<Step>, relist: Value -> Result<Value>, e: Error) {
    exists k :: k in Relisted(steps) && k in conf.vals && relist(conf.vals[k]) == Err(e)
  }

  /** With no entry rewritten twice, a plan raises exactly when it reads a
      missing entry or the processor raises on an entry it rewrites, as the
      store was on entry; the error is the KeyError of a missing entry it
      reads or the processor's own. */
  lemma {:induction false} PlanSucceeds(conf: ODict<Value>, opts: ODict<Value>, steps: seq<Step>, relist: Value -> Result<Value>)
    requires conf.Valid() && opts.Valid()
    requires NoDuplicates(Relisted(steps))
    ensures var r := RunPlan(conf, opts, steps, relist);
      (r.err.None? <==> ReadsPresent(conf, steps) && Processes(conf, steps, relist)) &&
      (r.err.Some? ==>
        (r.err.value.KeyError? && r.err.value.key in Read(steps) && r.err.value.key !in conf.vals) ||
        ProcessorError(conf, steps, relist, r.err.value))
    decreases |steps|
  {
    if steps != [] {
      var s, rest := steps[0], steps[1..];
      var r0 := StepResult(conf, opts, s, relist);
      PlanCons(steps);
      if r0.err.None? {
        NoDuplicatesTail(if s.Relist? then [s.confKey] else [], Relisted(rest));
        PlanSucceeds(r0.conf, r0.opts, rest, relist);
        StepKeepsReads(conf, opts, s, rest, relist);
      } else {
        assert !(ReadsPresent(conf, steps) && Processes(conf, steps, relist));
        if s.Relist? && s.confKey in conf.vals {
          assert ProcessorError(conf, steps, relist, r0.err.value);
        }
      }
    }
  }

  /** After a step that does not raise, the rest of the plan finds the
      same entries present, and the same values in the entries it rewrites,
      when no entry is rewritten twice. */
  lemma StepKeepsReads(conf: ODict<Value>, opts: ODict<Value>, s: Step, rest: seq<Step>, relist: Value -> Result<Value>)
    requires conf.Valid() && opts.Valid()
    requires StepResult(conf, opts, s, relist).err.None?
    requires s.Relist? ==> s.confKey !in Relisted(rest)
    ensures var c := StepResult(conf, opts, s, relist).conf;
      (ReadsPresent(conf, [s] + rest) <==> ReadsPresent(c, rest)) &&
      (Processes(conf, [s] + rest, relist) <==> Processes(c, rest, relist)) &&
      (forall e :: ProcessorError(c, rest, relist, e) ==> ProcessorError(conf, [s] + rest, relist, e))
  {
    var c := StepResult(conf, opts, s, relist).conf;
    var steps := [s] + rest;
    assert steps[0] == s && steps[1..] == rest;
    PlanCons(steps);
    assert forall k :: k in c.vals <==> k in conf.vals;
    forall k | k in Relisted(rest) && k in conf.vals ensures c.vals[k] == conf.vals[k] {
      assert c.Get(k) == conf.Get(k);
    }
    forall e | ProcessorError(c, rest, relist, e) ensures ProcessorError(conf, steps, relist, e) {
      var k :| k in Relisted(rest) && k in c.vals && relist(c.vals[k]) == Err(e);
      assert k in Relisted(steps);
    }
  }

  /** With every option written once, every entry rewritten once and no
      rewritten entry copied, a plan that succeeds leaves the effect of every
      one of its steps, judged against the store it started from. */
  lemma {:induction false} PlanWrites(conf: ODict<Value>, opts: ODict<Value>, steps: seq<Step>, relist: Value -> Result<Value>)
    requires conf.Valid() && opts.Valid()
    requires NoDuplicates(Written(steps)) && NoDuplicates(Relisted(steps))
    requires forall k :: k in Copied(steps) ==> k !in Relisted(steps)
    ensures var r := RunPlan(conf, opts, steps, relist);
      r.err.None? ==> forall i :: 0 <= i < |steps| ==> Applied(conf, r, steps[i], relist)
    decreases |steps|
  {
    var r := RunPlan(conf, opts, steps, relist);
    if steps != [] && r.err.None? {
      var s, rest := steps[0], steps[1..];
      var r0 := StepResult(conf, opts, s, relist);
      PlanCons(steps);
      assert r0.err.None? && r == RunPlan(r0.conf, r0.opts, rest, relist);
      NoDuplicatesTail(if s.Relist? then [] else [s.option], Written(rest));
      NoDuplicatesTail(if s.Relist? then [s.confKey] else [], Relisted(rest));
      PlanWrites(r0.conf, r0.opts, rest, relist);
      assert Applied(conf, r, s, relist) by {
        PlanOptionsFrame(r0.conf, r0.opts, rest, relist);
        PlanConfFrame(r0.conf, r0.opts, rest, relist);
      }
      forall i | 0 <= i < |rest| ensures Applied(conf, r, rest[i], relist) {
        StepIn(rest, i);
        AppliedEarlier(conf, opts, s, rest[i], r, relist);
      }
      forall i | 0 <= i < |steps| ensures Applied(conf, r, steps[i], relist) {
        if i > 0 {
          assert steps[i] == rest[i - 1];
        }
      }
    }
  }

  /** A later step's effect, judged against the store after step `s`, is
      its effect against the store before `s` unless `s` rewrote the entry
      the later step reads. */
  lemma AppliedEarlier(conf: ODict<Value>, opts: ODict<Value>, s: Step, t: Step, r: Run, relist: Value -> Result<Value>)
    requires conf.Valid() && opts.Valid()
    requires StepResult(conf, opts, s, relist).err.None?
    requires Applied(StepResult(conf, opts, s, relist).conf, r, t, relist)
    requires s.Relist? && !t.Fix? ==> s.confKey != t.confKey
    ensures Applied(conf, r, t, relist)
  {
  }

  /** `s + t` without duplicates: `t` has none, and shares none with `s`. */
  lemma NoDuplicatesTail(s: seq<string>, t: seq<string>)
    requires NoDuplicates(s + t)
    ensures NoDuplicates(t) && forall x :: x in s ==> x !in t
  {
    forall i, j | 0 <= i < j < |t| ensures t[i] != t[j] {
      assert (s + t)[|s| + i] == t[i] && (s + t)[|s| + j] == t[j];
    }
    forall i, j | 0 <= i < |s| && 0 <= j < |t| ensures s[i] != t[j] {
      assert (s + t)[i] == s[i] && (s + t)[|s| + j] == t[j];
    }
  }

  /** The keys a step at position `i` writes or reads are among the plan's. */
  lemma {:induction false} StepIn(steps: seq<Step>, i: int)
    requires 0 <= i < |steps|
    ensures steps[i].Copy? ==> steps[i].confKey in Copied(steps)
    ensures steps[i].Relist? ==> steps[i].confKey in Relisted(steps)
    ensures !steps[i].Relist? ==> steps[i].option in Written(steps)
    decreases i
  {
    if i > 0 {
      StepIn(steps[1..], i - 1);
    }
  }

  /** Rerunning steps that would write nothing new leaves the options table
      as it is, whether or not the processor raises on the way. */
  lemma {:induction false} PlanRerun(conf: ODict<Value>, opts: ODict<Value>, steps: seq<Step>, relist: Value -> Result<Value>)
    requires conf.Valid() && opts.Valid()
    requires forall i :: 0 <= i < |steps| ==> InPlace(conf, opts, steps[i])
    requires forall k :: k in Copied(steps) ==> k !in Relisted(steps)
    ensures RunPlan(conf, opts, steps, relist).opts == opts
    decreases |steps|
  {
    if steps != [] {
      var s, rest := steps[0], steps[1..];
      assert InPlace(conf, opts, steps[0]);
      PlanCons(steps);
      var r0 := StepResult(conf, opts, s, relist);
      match s {
        case Copy(o, k) => PutSame(opts, o, conf.vals[k]);
        case Fix(o, v) => PutSame(opts, o, v);
        case Relist(k) =>
      }
      forall i | 0 <= i < |rest| ensures InPlace(r0.conf, opts, rest[i]) {
        assert rest[i] == steps[i + 1] && InPlace(conf, opts, steps[i + 1]);
        StepIn(rest, i);
      }
      PlanRerun(r0.conf, opts, rest, relist);
    }
  }

  // ---------------------------------------------------------------- the plan of create_hieradata

  /** Every option create_hieradata may write. */
  const API_OPTIONS: set<string> := {
    CONTROLLER_INSTALL_API, CONTROLLER_MEMBERS, API_INSTALL_API, API_MEMBERS, API_ENABLE_HA,
    MON_HOSTS, VPN_AGENT, FWAAS_AGENT, LBAAS_AGENT,
    ENABLE_HORIZON, ENABLE_HEAT, ENABLE_GNOCCHI, ENABLE_AODH, ENABLE_CEILOMETER, ENABLE_CEILOMETER_CENTRAL,
    ENABLE_SWIFT, ENABLE_TROVE, ENABLE_NOVA, ENABLE_GLANCE,
    ENABLE_CINDER, ENABLE_CINDER_VOLUME, ENABLE_NEUTRON, SYSTEMD_HA}

  /** The entries create_hieradata reads once it knows the controller
      count, in the order it reads them; the last is rewritten. */
  const API_READS: seq<string> := [
    ENABLE_INSTALL_API, CLUSTER_MEMBERS, MONITOR_HOST,
    ENABLE_VPN_AGENT, ENABLE_FWAAS_AGENT, ENABLE_LBAAS_AGENT,
    HORIZON_INSTALL, HEAT_INSTALL, GNOCCHI_INSTALL, AODH_INSTALL, CEILOMETER_INSTALL, CEILOMETER_INSTALL,
    SWIFT_INSTALL, TROVE_INSTALL, NOVA_INSTALL, GLANCE_INSTALL,
    CINDER_INSTALL, CINDER_INSTALL, NEUTRON_INSTALL,
    MEMCACHE_SERVERS]

  /** The options written by `p + q` are those of `p`, then those of `q`. */
  lemma {:induction false} WrittenAppend(p: seq<Step>, q: seq<Step>)
    ensures Written(p + q) == Written(p) + Written(q)
    decreases |p|
  {
    if p == [] {
      assert p + q == q;
    } else {
      assert (p + q)[0] == p[0] && (p + q)[1..] == p[1..] + q;
      WrittenAppend(p[1..], q);
    }
  }

  /** The entries rewritten by `p + q` are those of `p`, then those of `q`. */
  lemma {:induction false} RelistedAppend(p: seq<Step>, q: seq<Step>)
    ensures Relisted(p + q) == Relisted(p) + Relisted(q)
    decreases |p|
  {
    if p == [] {
      assert p + q == q;
    } else {
      assert (p + q)[0] == p[0] && (p + q)[1..] == p[1..] + q;
      RelistedAppend(p[1..], q);
    }
  }

  /** The entries copied by `p + q` are those of `p`, then those of `q`. */
  lemma {:induction false} CopiedAppend(p: seq<Step>, q: seq<Step>)
    ensures Copied(p + q) == Copied(p) + Copied(q)
    decreases |p|
  {
    if p == [] {
      assert p + q == q;
    } else {
      assert (p + q)[0] == p[0] && (p + q)[1..] == p[1..] + q;
      CopiedAppend(p[1..], q);
    }
  }

  /** The entries read by `p + q` are those of `p`, then those of `q`. */
  lemma {:induction false} ReadAppend(p: seq<Step>, q: seq<Step>)
    ensures Read(p + q) == Read(p) + Read(q)
    decreases |p|
  {
    if p == [] {
      assert p + q == q;
    } else {
      assert (p + q)[0] == p[0] && (p + q)[1..] == p[1..] + q;
      ReadAppend(p[1..], q);
    }
  }

  /** A run of copies writes each step's option and reads each step's
      entry, in turn. */
  lemma {:induction false} CopiesOnly(steps: seq<Step>)
    requires forall i :: 0 <= i < |steps| ==> steps[i].Copy?
    ensures Written(steps) == seq(|steps|, i requires 0 <= i < |steps| => steps[i].option)
    ensures Copied(steps) == Read(steps) == seq(|steps|, i requires 0 <= i < |steps| => steps[i].confKey)
    ensures Relisted(steps) == []
    decreases |steps|
  {
    if steps != [] {
      CopiesOnly(steps[1..]);
    }
  }

  /** What the HA block writes and reads. */
  lemma HaKeys(ha: bool)
    ensures Written(HaSteps(ha)) == if ha then [CONTROLLER_INSTALL_API, CONTROLLER_MEMBERS, API_ENABLE_HA] else [API_INSTALL_API, API_MEMBERS, API_ENABLE_HA]
    ensures Copied(HaSteps(ha)) == Read(HaSteps(ha)) == [ENABLE_INSTALL_API, CLUSTER_MEMBERS]
    ensures Relisted(HaSteps(ha)) == []
  {
    var h := HaSteps(ha);
    PlanCons(h);
    PlanCons(h[1..]);
    PlanCons(h[1..][1..]);
    assert h[1..][1..][1..] == [];
  }

  /** What the systemd block writes and reads. */
  lemma SystemdKeys(ha: bool)
    ensures Written(SystemdSteps(ha)) == if ha then [SYSTEMD_HA] else []
    ensures Copied(SystemdSteps(ha)) == Read(SystemdSteps(ha)) == Relisted(SystemdSteps(ha)) == []
  {
    if ha {
      assert SystemdSteps(ha)[1..] == [];
    }
  }

  /** What the agent block writes and reads. */
  lemma AgentKeys()
    ensures Written(AGENT_STEPS) == [MON_HOSTS, VPN_AGENT, FWAAS_AGENT, LBAAS_AGENT]
    ensures Copied(AGENT_STEPS) == Read(AGENT_STEPS) == [MONITOR_HOST, ENABLE_VPN_AGENT, ENABLE_FWAAS_AGENT, ENABLE_LBAAS_AGENT]
    ensures Relisted(AGENT_STEPS) == []
  {
    CopiesOnly(AGENT_STEPS);
  }

  /** What the telemetry block writes and reads. */
  lemma TelemetryKeys()
    ensures Written(TELEMETRY_STEPS) == [ENABLE_HORIZON, ENABLE_HEAT, ENABLE_GNOCCHI, ENABLE_AODH, ENABLE_CEILOMETER, ENABLE_CEILOMETER_CENTRAL]
    ensures Copied(TELEMETRY_STEPS) == Read(TELEMETRY_STEPS) ==
      [HORIZON_INSTALL, HEAT_INSTALL, GNOCCHI_INSTALL, AODH_INSTALL, CEILOMETER_INSTALL, CEILOMETER_INSTALL]
    ensures Relisted(TELEMETRY_STEPS) == []
  {
    CopiesOnly(TELEMETRY_STEPS);
  }

  /** What the core block writes and reads. */
  lemma CoreKeys()
    ensures Written(CORE_STEPS) == [ENABLE_SWIFT, ENABLE_TROVE, ENABLE_NOVA, ENABLE_GLANCE]
    ensures Copied(CORE_STEPS) == Read(CORE_STEPS) == [SWIFT_INSTALL, TROVE_INSTALL, NOVA_INSTALL, GLANCE_INSTALL]
    ensures Relisted(CORE_STEPS) == []
  {
    CopiesOnly(CORE_STEPS);
  }

  /** What the storage block writes and reads. */
  lemma StorageKeys()
    ensures Written(STORAGE_STEPS) == [ENABLE_CINDER, ENABLE_CINDER_VOLUME, ENABLE_NEUTRON]
    ensures Copied(STORAGE_STEPS) == Read(STORAGE_STEPS) == [CINDER_INSTALL, CINDER_INSTALL, NEUTRON_INSTALL]
    ensures Relisted(STORAGE_STEPS) == []
  {
    CopiesOnly(STORAGE_STEPS);
  }

  /** The options the plan writes, block by block in source order. */
  lemma WrittenPlan(ha: bool)
    ensures Written(ApiPlan(ha)) ==
      (if ha then [CONTROLLER_INSTALL_API, CONTROLLER_MEMBERS, API_ENABLE_HA] else [API_INSTALL_API, API_MEMBERS, API_ENABLE_HA]) +
      ([MON_HOSTS, VPN_AGENT, FWAAS_AGENT, LBAAS_AGENT] +
      ([ENABLE_HORIZON, ENABLE_HEAT, ENABLE_GNOCCHI, ENABLE_AODH, ENABLE_CEILOMETER, ENABLE_CEILOMETER_CENTRAL] +
      ([ENABLE_SWIFT, ENABLE_TROVE, ENABLE_NOVA, ENABLE_GLANCE] +
      ([ENABLE_CINDER, ENABLE_CINDER_VOLUME, ENABLE_NEUTRON] +
      (if ha then [SYSTEMD_HA] else [])))))
  {
    PlanWrittenAppend(ha);
    HaKeys(ha);
    AgentKeys();
    TelemetryKeys();
    CoreKeys();
    StorageKeys();
    SystemdKeys(ha);
  }

  /** The entries the plan reads, in order. */
  lemma ReadPlan(ha: bool)
    ensures Read(ApiPlan(ha)) == API_READS
  {
    PlanReadAppend(ha);
    assert Read(HaSteps(ha)) == [ENABLE_INSTALL_API, CLUSTER_MEMBERS] by { HaKeys(ha); }
    assert Read(AGENT_STEPS) == [MONITOR_HOST, ENABLE_VPN_AGENT, ENABLE_FWAAS_AGENT, ENABLE_LBAAS_AGENT] by { AgentKeys(); }
    assert Read(TELEMETRY_STEPS) == [HORIZON_INSTALL, HEAT_INSTALL, GNOCCHI_INSTALL, AODH_INSTALL, CEILOMETER_INSTALL, CEILOMETER_INSTALL] by { TelemetryKeys(); }
    assert Read(CORE_STEPS) == [SWIFT_INSTALL, TROVE_INSTALL, NOVA_INSTALL, GLANCE_INSTALL] by { CoreKeys(); }
    assert Read(STORAGE_STEPS) == [CINDER_INSTALL, CINDER_INSTALL, NEUTRON_INSTALL] by { StorageKeys(); }
    assert [MEMCACHE_SERVERS] + Read(SystemdSteps(ha)) == [MEMCACHE_SERVERS] by { SystemdKeys(ha); }
    ReadsList();
  }


  /** `API_READS`, block by block. */
  lemma ReadsList()
    ensures API_READS == [ENABLE_INSTALL_API, CLUSTER_MEMBERS] + ([MONITOR_HOST, ENABLE_VPN_AGENT, ENABLE_FWAAS_AGENT, ENABLE_LBAAS_AGENT] +
      ([HORIZON_INSTALL, HEAT_INSTALL, GNOCCHI_INSTALL, AODH_INSTALL, CEILOMETER_INSTALL, CEILOMETER_INSTALL] +
      ([SWIFT_INSTALL, TROVE_INSTALL, NOVA_INSTALL, GLANCE_INSTALL] +
      ([CINDER_INSTALL, CINDER_INSTALL, NEUTRON_INSTALL] + [MEMCACHE_SERVERS]))))
  {
  }

  /** The plan rewrites the memcache servers, once, and copies every other
      entry it reads but never that one. */
  lemma RelistedPlan(ha: bool)
    ensures Relisted(ApiPlan(ha)) == [MEMCACHE_SERVERS]
    ensures MEMCACHE_SERVERS !in Copied(ApiPlan(ha))
  {
    PlanRelistedAppend(ha);
    PlanCopiedAppend(ha);
    HaKeys(ha);
    AgentKeys();
    TelemetryKeys();
    CoreKeys();
    StorageKeys();
    SystemdKeys(ha);
    assert Copied(ApiPlan(ha)) == [ENABLE_INSTALL_API, CLUSTER_MEMBERS] + ([MONITOR_HOST, ENABLE_VPN_AGENT, ENABLE_FWAAS_AGENT, ENABLE_LBAAS_AGENT] +
      ([HORIZON_INSTALL, HEAT_INSTALL, GNOCCHI_INSTALL, AODH_INSTALL, CEILOMETER_INSTALL, CEILOMETER_INSTALL] +
      ([SWIFT_INSTALL, TROVE_INSTALL, NOVA_INSTALL, GLANCE_INSTALL] +
      ([CINDER_INSTALL, CINDER_INSTALL, NEUTRON_INSTALL] + []))));
    CopiedList();
  }

  /** No entry of the copied blocks is the memcache servers. */
  lemma CopiedList()
    ensures MEMCACHE_SERVERS !in [ENABLE_INSTALL_API, CLUSTER_MEMBERS] + ([MONITOR_HOST, ENABLE_VPN_AGENT, ENABLE_FWAAS_AGENT, ENABLE_LBAAS_AGENT] +
      ([HORIZON_INSTALL, HEAT_INSTALL, GNOCCHI_INSTALL, AODH_INSTALL, CEILOMETER_INSTALL, CEILOMETER_INSTALL] +
      ([SWIFT_INSTALL, TROVE_INSTALL, NOVA_INSTALL, GLANCE_INSTALL] +
      ([CINDER_INSTALL, CINDER_INSTALL, NEUTRON_INSTALL] + []))))
  {
  }

  /** The options of the plan are those of its blocks, joined. */
  lemma PlanWrittenAppend(ha: bool)
    ensures Written(ApiPlan(ha)) == Written(HaSteps(ha)) + (Written(AGENT_STEPS) + (Written(TELEMETRY_STEPS) +
      (Written(CORE_STEPS) + (Written(STORAGE_STEPS) + Written(SystemdSteps(ha))))))
  {
    var tail := [Relist(MEMCACHE_SERVERS)] + SystemdSteps(ha);
    var r4 := STORAGE_STEPS + tail;
    var r3 := CORE_STEPS + r4;
    var r2 := TELEMETRY_STEPS + r3;
    var r1 := AGENT_STEPS + r2;
    WrittenAppend([Relist(MEMCACHE_SERVERS)], SystemdSteps(ha));
    assert [Relist(MEMCACHE_SERVERS)][1..] == [];
    WrittenAppend(STORAGE_STEPS, tail);
    WrittenAppend(CORE_STEPS, r4);
    WrittenAppend(TELEMETRY_STEPS, r3);
    WrittenAppend(AGENT_STEPS, r2);
    WrittenAppend(HaSteps(ha), r1);
  }

  /** The entries the plan reads are those of its blocks, joined. */
  lemma PlanReadAppend(ha: bool)
    ensures Read(ApiPlan(ha)) == Read(HaSteps(ha)) + (Read(AGENT_STEPS) + (Read(TELEMETRY_STEPS) +
      (Read(CORE_STEPS) + (Read(STORAGE_STEPS) + ([MEMCACHE_SERVERS] + Read(SystemdSteps(ha)))))))
  {
    var tail := [Relist(MEMCACHE_SERVERS)] + SystemdSteps(ha);
    var r4 := STORAGE_STEPS + tail;
    var r3 := CORE_STEPS + r4;
    var r2 := TELEMETRY_STEPS + r3;
    var r1 := AGENT_STEPS + r2;
    ReadAppend([Relist(MEMCACHE_SERVERS)], SystemdSteps(ha));
    assert [Relist(MEMCACHE_SERVERS)][1..] == [];
    ReadAppend(STORAGE_STEPS, tail);
    ReadAppend(CORE_STEPS, r4);
    ReadAppend(TELEMETRY_STEPS, r3);
    ReadAppend(AGENT_STEPS, r2);
    ReadAppend(HaSteps(ha), r1);
  }

  /** The entries the plan copies are those of its blocks, joined. */
  lemma PlanCopiedAppend(ha: bool)
    ensures Copied(ApiPlan(ha)) == Copied(HaSteps(ha)) + (Copied(AGENT_STEPS) + (Copied(TELEMETRY_STEPS) +
      (Copied(CORE_STEPS) + (Copied(STORAGE_STEPS) + Copied(SystemdSteps(ha))))))
  {
    var tail := [Relist(MEMCACHE_SERVERS)] + SystemdSteps(ha);
    var r4 := STORAGE_STEPS + tail;
    var r3 := CORE_STEPS + r4;
    var r2 := TELEMETRY_STEPS + r3;
    var r1 := AGENT_STEPS + r2;
    CopiedAppend([Relist(MEMCACHE_SERVERS)], SystemdSteps(ha));
    assert [Relist(MEMCACHE_SERVERS)][1..] == [];
    CopiedAppend(STORAGE_STEPS, tail);
    CopiedAppend(CORE_STEPS, r4);
    CopiedAppend(TELEMETRY_STEPS, r3);
    CopiedAppend(AGENT_STEPS, r2);
    CopiedAppend(HaSteps(ha), r1);
  }

  /** The entries the plan rewrites are those of its blocks, joined. */
  lemma PlanRelistedAppend(ha: bool)
    ensures Relisted(ApiPlan(ha)) == Relisted(HaSteps(ha)) + (Relisted(AGENT_STEPS) + (Relisted(TELEMETRY_STEPS) +
      (Relisted(CORE_STEPS) + (Relisted(STORAGE_STEPS) + ([MEMCACHE_SERVERS] + Relisted(SystemdSteps(ha)))))))
  {
    var tail := [Relist(MEMCACHE_SERVERS)] + SystemdSteps(ha);
    var r4 := STORAGE_STEPS + tail;
    var r3 := CORE_STEPS + r4;
    var r2 := TELEMETRY_STEPS + r3;
    var r1 := AGENT_STEPS + r2;
    RelistedAppend([Relist(MEMCACHE_SERVERS)], SystemdSteps(ha));
    assert [Relist(MEMCACHE_SERVERS)][1..] == [];
    RelistedAppend(STORAGE_STEPS, tail);
    RelistedAppend(CORE_STEPS, r4);
    RelistedAppend(TELEMETRY_STEPS, r3);
    RelistedAppend(AGENT_STEPS, r2);
    RelistedAppend(HaSteps(ha), r1);
  }

  /** The options the plan writes, in one list for each controller count. */
  lemma WrittenFlat(ha: bool)
    ensures ha ==> Written(ApiPlan(ha)) == HA_OPTIONS
    ensures !ha ==> Written(ApiPlan(ha)) == SINGLE_OPTIONS
  {
    WrittenPlan(ha);
    OptionListsShape();
  }

  /** The options written on an HA install, in order. */
  const HA_OPTIONS := [CONTROLLER_INSTALL_API, CONTROLLER_MEMBERS, API_ENABLE_HA, MON_HOSTS, VPN_AGENT, FWAAS_AGENT, LBAAS_AGENT,
    ENABLE_HORIZON, ENABLE_HEAT, ENABLE_GNOCCHI, ENABLE_AODH, ENABLE_CEILOMETER, ENABLE_CEILOMETER_CENTRAL,
    ENABLE_SWIFT, ENABLE_TROVE, ENABLE_NOVA, ENABLE_GLANCE,
    ENABLE_CINDER, ENABLE_CINDER_VOLUME, ENABLE_NEUTRON, SYSTEMD_HA]

  /** The options written otherwise, in order. */
  const SINGLE_OPTIONS := [API_INSTALL_API, API_MEMBERS, API_ENABLE_HA, MON_HOSTS, VPN_AGENT, FWAAS_AGENT, LBAAS_AGENT,
    ENABLE_HORIZON, ENABLE_HEAT, ENABLE_GNOCCHI, ENABLE_AODH, ENABLE_CEILOMETER, ENABLE_CEILOMETER_CENTRAL,
    ENABLE_SWIFT, ENABLE_TROVE, ENABLE_NOVA, ENABLE_GLANCE,
    ENABLE_CINDER, ENABLE_CINDER_VOLUME, ENABLE_NEUTRON]

  /** The two option lists, block by block. */
  lemma OptionListsShape()
    ensures HA_OPTIONS == (
      [CONTROLLER_INSTALL_API, CONTROLLER_MEMBERS, API_ENABLE_HA] +
      ([MON_HOSTS, VPN_AGENT, FWAAS_AGENT, LBAAS_AGENT] +
      ([ENABLE_HORIZON, ENABLE_HEAT, ENABLE_GNOCCHI, ENABLE_AODH, ENABLE_CEILOMETER, ENABLE_CEILOMETER_CENTRAL] +
      ([ENABLE_SWIFT, ENABLE_TROVE, ENABLE_NOVA, ENABLE_GLANCE] +
      ([ENABLE_CINDER, ENABLE_CINDER_VOLUME, ENABLE_NEUTRON] + [SYSTEMD_HA])))))
    ensures SINGLE_OPTIONS == (
      [API_INSTALL_API, API_MEMBERS, API_ENABLE_HA] +
      ([MON_HOSTS, VPN_AGENT, FWAAS_AGENT, LBAAS_AGENT] +
      ([ENABLE_HORIZON, ENABLE_HEAT, ENABLE_GNOCCHI, ENABLE_AODH, ENABLE_CEILOMETER, ENABLE_CEILOMETER_CENTRAL] +
      ([ENABLE_SWIFT, ENABLE_TROVE, ENABLE_NOVA, ENABLE_GLANCE] +
      ([ENABLE_CINDER, ENABLE_CINDER_VOLUME, ENABLE_NEUTRON] + [])))))
  {
  }

  /** The HA option list names no option twice. */
  lemma HaOptionsDistinct()
    ensures NoDuplicates(HA_OPTIONS)
  {
  }

  /** The single-controller option list names no option twice. */
  lemma SingleOptionsDistinct()
    ensures NoDuplicates(SINGLE_OPTIONS)
  {
  }

  /** The HA option list names only API options, and not the `api::`
      install and members options. */
  lemma HaOptionsMembers()
    ensures forall o :: o in HA_OPTIONS ==> o in API_OPTIONS
    ensures API_INSTALL_API !in HA_OPTIONS && API_MEMBERS !in HA_OPTIONS
  {
  }

  /** The single-controller option list names only API options, and not
      the controller options or the systemd HA switch. */
  lemma SingleOptionsMembers()
    ensures forall o :: o in SINGLE_OPTIONS ==> o in API_OPTIONS
    ensures CONTROLLER_INSTALL_API !in SINGLE_OPTIONS && CONTROLLER_MEMBERS !in SINGLE_OPTIONS && SYSTEMD_HA !in SINGLE_OPTIONS
  {
  }

  /** Each option is written at most once, every one of them is an API
      option, and which of the HA-dependent ones are written follows the
      controller count. */
  lemma WrittenKeys(ha: bool)
    ensures NoDuplicates(Written(ApiPlan(ha)))
    ensures forall o :: o in Written(ApiPlan(ha)) ==> o in API_OPTIONS
    ensures API_ENABLE_HA in Written(ApiPlan(ha))
    ensures CONTROLLER_INSTALL_API in Written(ApiPlan(ha)) <==> ha
    ensures CONTROLLER_MEMBERS in Written(ApiPlan(ha)) <==> ha
    ensures API_INSTALL_API in Written(ApiPlan(ha)) <==> !ha
    ensures API_MEMBERS in Written(ApiPlan(ha)) <==> !ha
    ensures SYSTEMD_HA in Written(ApiPlan(ha)) <==> ha
  {
    WrittenFlat(ha);
    if ha {
      HaOptionsDistinct();
      HaOptionsMembers();
    } else {
      SingleOptionsDistinct();
      SingleOptionsMembers();
    }
  }

  // ---------------------------------------------------------------- what create_hieradata does

  /** Whether create_hieradata takes the HA branch, when it gets that far:
      the controller host has length three, as characters of a string, items
      of a list or entries of a table. */
  function HaInstall(conf: ODict<Value>): (r: Option<bool>)
    ensures r.Some? <==> CONTROLLER_HOST in conf.vals && !conf.vals[CONTROLLER_HOST].Bool? && !conf.vals[CONTROLLER_HOST].Int?
    ensures r.Some? ==> var h := conf.vals[CONTROLLER_HOST];
      (r.value <==> (h.Str? && |h.s| == 3) || (h.List? && |h.items| == 3) || (h.Table? && |h.t.keys| == 3))
  {
    match Lookup(conf, CONTROLLER_HOST)
    case Err(_) => None
    case Ok(h) =>
      match Len(h, CONTROLLER_HOST)
      case Err(_) => None
      case Ok(n) => Some(n == 3)
  }

  /** The plan the run follows, once the controller count is known. */
  lemma HieradataPlan(conf: ODict<Value>, opts: ODict<Value>, relist: Value -> Result<Value>)
    requires conf.Valid() && opts.Valid()
    ensures HaInstall(conf).Some? ==> Hieradata(conf, opts, relist) == RunPlan(conf, opts, ApiPlan(HaInstall(conf).value), relist)
    ensures HaInstall(conf).None? ==> Hieradata(conf, opts, relist).opts == opts && Hieradata(conf, opts, relist).conf == conf
  {
  }

  /** create_hieradata raises exactly when the controller host is missing
      or is a bool or an int, an entry it reads is missing, or the processor
      raises on the memcache servers: a KeyError for the missing entry, a
      TypeError for the controller host, or the processor's error; the
      writes before the failing step stay. */
  lemma HieradataErrors(conf: ODict<Value>, opts: ODict<Value>, relist: Value -> Result<Value>)
    requires conf.Valid() && opts.Valid()
    ensures var r := Hieradata(conf, opts, relist);
      (r.err.None? <==>
        HaInstall(conf).Some? && (forall k :: k in API_READS ==> k in conf.vals) &&
        MEMCACHE_SERVERS in conf.vals && relist(conf.vals[MEMCACHE_SERVERS]).Ok?) &&
      (CONTROLLER_HOST !in conf.vals ==> r == Run(conf, opts, Some(KeyError(CONTROLLER_HOST)))) &&
      (CONTROLLER_HOST in conf.vals && HaInstall(conf).None? ==> r == Run(conf, opts, Some(TypeError(CONTROLLER_HOST)))) &&
      (r.err.Some? && HaInstall(conf).Some? ==>
        (r.err.value.KeyError? && r.err.value.key in API_READS && r.err.value.key !in conf.vals) ||
        (MEMCACHE_SERVERS in conf.vals && relist(conf.vals[MEMCACHE_SERVERS]) == Err(r.err.value)))
  {
    if HaInstall(conf).Some? {
      var ha := HaInstall(conf).value;
      RelistedPlan(ha);
      PlanSucceeds(conf, opts, ApiPlan(ha), relist);
      ReadPlan(ha);
      assert MEMCACHE_SERVERS in API_READS by { ReadsList(); }
    }
  }

  /** Whatever happens, create_hieradata touches no option outside the API
      options, rewrites no entry but the memcache servers, and adds options
      only after those already in the table; the options of the other
      install kind are left as they were. */
  lemma HieradataFrame(conf: ODict<Value>, opts: ODict<Value>, relist: Value -> Result<Value>)
    requires conf.Valid() && opts.Valid()
    ensures var r := Hieradata(conf, opts, relist);
      (forall o :: o !in API_OPTIONS ==> r.opts.Get(o) == opts.Get(o)) &&
      (forall k :: k != MEMCACHE_SERVERS ==> r.conf.Get(k) == conf.Get(k)) &&
      r.conf.keys == conf.keys && KeepsOrder(opts, r.opts) &&
      (HaInstall(conf) == Some(true) ==>
        r.opts.Get(API_INSTALL_API) == opts.Get(API_INSTALL_API) && r.opts.Get(API_MEMBERS) == opts.Get(API_MEMBERS)) &&
      (HaInstall(conf) == Some(false) ==>
        r.opts.Get(CONTROLLER_INSTALL_API) == opts.Get(CONTROLLER_INSTALL_API) &&
        r.opts.Get(CONTROLLER_MEMBERS) == opts.Get(CONTROLLER_MEMBERS) &&
        r.opts.Get(SYSTEMD_HA) == opts.Get(SYSTEMD_HA))
  {
    if HaInstall(conf).Some? {
      var ha := HaInstall(conf).value;
      PlanOptionsFrame(conf, opts, ApiPlan(ha), relist);
      PlanConfFrame(conf, opts, ApiPlan(ha), relist);
      WrittenKeys(ha);
      RelistedPlan(ha);
    }
  }

  /** When create_hieradata succeeds, every step of its plan has had its
      effect: each option holds the entry it copies, as the store was on
      entry, or the constant it is set to, and the memcache servers hold
      the processed value, the processor having returned one. */
  lemma HieradataApplied(conf: ODict<Value>, opts: ODict<Value>, relist: Value -> Result<Value>)
    requires conf.Valid() && opts.Valid()
    ensures var r := Hieradata(conf, opts, relist);
      r.err.None? ==>
        HaInstall(conf).Some? &&
        forall i :: 0 <= i < |ApiPlan(HaInstall(conf).value)| ==> Applied(conf, r, ApiPlan(HaInstall(conf).value)[i], relist)
  {
    if HaInstall(conf).Some? {
      var ha := HaInstall(conf).value;
      WrittenKeys(ha);
      RelistedPlan(ha);
      PlanWrites(conf, opts, ApiPlan(ha), relist);
    }
  }

  /** The options a successful run leaves, named: the HA flag follows the
      controller count, the installation and cluster keys go to the
      controller or the API namespace by it, systemd HA is switched on only
      for an HA install, both ceilometer switches hold the one ceilometer
      setting and both cinder switches the one cinder setting, and the
      memcache servers are processed. */
  lemma HieradataWrites(conf: ODict<Value>, opts: ODict<Value>, relist: Value -> Result<Value>)
    requires conf.Valid() && opts.Valid()
    ensures var r := Hieradata(conf, opts, relist);
      r.err.None? ==>
        var ha := HaInstall(conf) == Some(true);
        ENABLE_INSTALL_API in conf.vals && CLUSTER_MEMBERS in conf.vals && CEILOMETER_INSTALL in conf.vals &&
        CINDER_INSTALL in conf.vals && MEMCACHE_SERVERS in conf.vals &&
        r.opts.Get(API_ENABLE_HA) == Some(Bool(ha)) &&
        r.opts.Get(if ha then CONTROLLER_INSTALL_API else API_INSTALL_API) == Some(conf.vals[ENABLE_INSTALL_API]) &&
        r.opts.Get(if ha then CONTROLLER_MEMBERS else API_MEMBERS) == Some(conf.vals[CLUSTER_MEMBERS]) &&
        (ha ==> r.opts.Get(SYSTEMD_HA) == Some(Bool(true))) &&
        r.opts.Get(ENABLE_CEILOMETER) == r.opts.Get(ENABLE_CEILOMETER_CENTRAL) == Some(conf.vals[CEILOMETER_INSTALL]) &&
        r.opts.Get(ENABLE_CINDER) == r.opts.Get(ENABLE_CINDER_VOLUME) == Some(conf.vals[CINDER_INSTALL]) &&
        relist(conf.vals[MEMCACHE_SERVERS]).Ok? &&
        r.conf.Get(MEMCACHE_SERVERS) == Some(relist(conf.vals[MEMCACHE_SERVERS]).value)
  {
    var r := Hieradata(conf, opts, relist);
    HieradataApplied(conf, opts, relist);
    if r.err.None? {
      var ha := HaInstall(conf).value;
      var plan := ApiPlan(ha);
      PlanSteps(ha);
      assert Applied(conf, r, plan[0], relist) && Applied(conf, r, plan[1], relist) && Applied(conf, r, plan[2], relist);
      assert Applied(conf, r, plan[11], relist) && Applied(conf, r, plan[12], relist);
      assert Applied(conf, r, plan[17], relist) && Applied(conf, r, plan[18], relist);
      assert Applied(conf, r, plan[20], relist);
      if ha {
        assert Applied(conf, r, plan[21], relist);
      }
    }
  }

  /** The steps of the plan the named facts rest on, by position. */
  lemma PlanSteps(ha: bool)
    ensures var plan := ApiPlan(ha);
      |plan| == (if ha then 22 else 21) &&
      plan[0] == Copy(if ha then CONTROLLER_INSTALL_API else API_INSTALL_API, ENABLE_INSTALL_API) &&
      plan[1] == Copy(if ha then CONTROLLER_MEMBERS else API_MEMBERS, CLUSTER_MEMBERS) &&
      plan[2] == Fix(API_ENABLE_HA, Bool(ha)) &&
      plan[11] == Copy(ENABLE_CEILOMETER, CEILOMETER_INSTALL) &&
      plan[12] == Copy(ENABLE_CEILOMETER_CENTRAL, CEILOMETER_INSTALL) &&
      plan[17] == Copy(ENABLE_CINDER, CINDER_INSTALL) &&
      plan[18] == Copy(ENABLE_CINDER_VOLUME, CINDER_INSTALL) &&
      plan[20] == Relist(MEMCACHE_SERVERS) &&
      (ha ==> plan[21] == Fix(SYSTEMD_HA, Bool(true)))
  {
  }

  /** Running create_hieradata again on what it left behind leaves the
      options table exactly as it is and touches no entry but the memcache
      servers; it raises exactly when the processor raises on the value the
      first run stored there, and then with the processor's error. */
  lemma HieradataRerun(conf: ODict<Value>, opts: ODict<Value>, relist: Value -> Result<Value>)
    requires conf.Valid() && opts.Valid()
    ensures var r := Hieradata(conf, opts, relist);
      r.err.None? ==>
        var r2 := Hieradata(r.conf, r.opts, relist);
        r2.opts == r.opts &&
        (forall k :: k != MEMCACHE_SERVERS ==> r2.conf.Get(k) == r.conf.Get(k)) &&
        MEMCACHE_SERVERS in r.conf.vals &&
        (r2.err.None? <==> relist(r.conf.vals[MEMCACHE_SERVERS]).Ok?) &&
        (r2.err.Some? ==> r2.err == Some(relist(r.conf.vals[MEMCACHE_SERVERS]).error))
  {
    var r := Hieradata(conf, opts, relist);
    if r.err.None? {
      HieradataApplied(conf, opts, relist);
      HieradataFrame(conf, opts, relist);
      var ha := HaInstall(conf).value;
      var plan := ApiPlan(ha);
      assert r.conf.Get(CONTROLLER_HOST) == conf.Get(CONTROLLER_HOST);
      assert HaInstall(r.conf) == HaInstall(conf);
      RelistedPlan(ha);
      forall i | 0 <= i < |plan| ensures InPlace(r.conf, r.opts, plan[i]) {
        assert Applied(conf, r, plan[i], relist);
        StepIn(plan, i);
        if plan[i].Copy? {
          assert r.conf.Get(plan[i].confKey) == conf.Get(plan[i].confKey);
        }
      }
      PlanRerun(r.conf, r.opts, plan, relist);
      HieradataFrame(r.conf, r.opts, relist);
      HieradataErrors(conf, opts, relist);
      assert forall k :: k in API_READS ==> k in r.conf.vals;
      HieradataErrors(r.conf, r.opts, relist);
    }
  }

  // ---------------------------------------------------------------- registration

  /** The parameters `initConfig` declares, by command-line option and
      value-store key, in order. */
  const API_PARAMS: seq<Registry.Param> := [
    Registry.Param("ceph_monitor_host", MONITOR_HOST),
    Registry.Param("memcache_servers", MEMCACHE_SERVERS),
    Registry.Param("enable_install_api", ENABLE_INSTALL_API),
    Registry.Param("enable_vpn_agent", ENABLE_VPN_AGENT),
    Registry.Param("enable_fwaas_agent", ENABLE_FWAAS_AGENT),
    Registry.Param("enable_lbaas_agent", ENABLE_LBAAS_AGENT),
    Registry.Param("os_debug", "CONFIG_OS_DEBUG"),
    Registry.Param("use_syslog", "CONFIG_USE_SYSLOG")]

  /** The group the parameters are declared in. */
  const API_GROUP := Registry.Group("API", "OpenStack API Node Config parameters", false, true, false, true)

  /** The sequence `initSequences` registers. */
  const API_SEQUENCE := Registry.Sequence(
    "Configuring API", [], [],
    [Registry.Step("Preparing API entries", ["create_hieradata"])])

  /** The value-store keys of the declared parameters. */
  function ConfNames(ps: seq<Registry.Param>): (r: seq<string>)
    ensures |r| == |ps| && forall i :: 0 <= i < |ps| ==> r[i] == ps[i].confName
  {
    seq(|ps|, i requires 0 <= i < |ps| => ps[i].confName)
  }

  /** The API group declares its pre-condition and its post-condition as
      False, each with match True; its parameters name distinct value-store
      keys, and six of them are read by create_hieradata; the debug and
      syslog switches are not. */
  lemma ApiParams()
    ensures !API_GROUP.preCondition && API_GROUP.preConditionMatch
    ensures !API_GROUP.postCondition && API_GROUP.postConditionMatch
    ensures NoDuplicates(ConfNames(API_PARAMS))
    ensures forall i :: 0 <= i < 6 ==> ConfNames(API_PARAMS)[i] in API_READS
    ensures ConfNames(API_PARAMS)[6] !in API_READS && ConfNames(API_PARAMS)[7] !in API_READS
  {
    assert ConfNames(API_PARAMS) == [MONITOR_HOST, MEMCACHE_SERVERS, ENABLE_INSTALL_API, ENABLE_VPN_AGENT,
      ENABLE_FWAAS_AGENT, ENABLE_LBAAS_AGENT, "CONFIG_OS_DEBUG", "CONFIG_USE_SYSLOG"];
  }

  /** The API sequence has no conditions and runs create_hieradata alone. */
  lemma ApiSequenceOrder()
    ensures API_SEQUENCE.conditions == [] && API_SEQUENCE.conditionMatches == []
    ensures Registry.CallOrder(API_SEQUENCE.steps) == ["create_hieradata"]
  {
  }
}
