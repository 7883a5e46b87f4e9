/** `CreateNearDAS`: the NEAR service, used as writer and reader. */
module NearAggregator {
  import opened DasConfig
  import opened Pipeline

  /** The writer, the reader and the service `CreateNearDAS` returns. */
  datatype NearDas = NearDas(writer: Service, reader: Service, service: Service)

  /** The one NEAR service the call builds, in all three roles. */
  const TheNearDas: NearDas := NearDas(Near(0), Near(0), Near(0))

  /** The steps of `CreateNearDAS`: the NEAR aggregator must be enabled,
      then the service is constructed. */
  function NearPlan(cfg: Config): seq<Step> {
    [Require(cfg.nearAggregator.enable, NearAggregatorDisabled), Construct(NewNearService)]
  }

  /** What `CreateNearDAS` returns. Its lifecycle manager parameter is not
      used: nothing is registered. */
  function CreateNearDAS(cfg: Config, fails: set<Ctor>): (r: Outcome<NearDas>)
    ensures r.Ok? ==> r.value.writer == r.value.reader == r.value.service && r.value.reader.Near?
    ensures r != Panic
  {
    if !cfg.nearAggregator.enable then Err(ConfigError(NearAggregatorDisabled))
    else if NewNearService in fails then Err(ConstructorError(NewNearService))
    else Ok(TheNearDas)
  }

  /** `CreateNearDAS` takes the steps of its plan: it refuses a disabled
      NEAR aggregator before constructing anything, and succeeds exactly
      when the aggregator is enabled and the service is built. */
  lemma CreateNearDASFollowsPlan(cfg: Config, fails: set<Ctor>)
    ensures CreateNearDAS(cfg, fails) == Run(NearPlan(cfg), fails, TheNearDas)
    ensures CreateNearDAS(cfg, fails).Ok? <==> cfg.nearAggregator.enable && NewNearService !in fails
  {
    RunCons(NearPlan(cfg)[0], [Construct(NewNearService)], fails, TheNearDas);
    RunCons(Construct(NewNearService), [], fails, TheNearDas);
    assert NearPlan(cfg) == [NearPlan(cfg)[0]] + [Construct(NewNearService)];
  }
}
