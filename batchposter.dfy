/** `CreateBatchPosterDAS`: the writer and reader of a batch poster in
    AnyTrust mode. */
module BatchPoster {
  import opened DasConfig
  import opened Pipeline
  import opened Lifecycle

  /** The writer and reader the batch poster gets. */
  datatype BatchPosterDas = BatchPosterDas(writer: Service, reader: Service)

  /** The constructors the batch poster calls once its configuration passed
      the checks, in call order. */
  function BatchPosterPlan(hasSigner: bool): seq<Step> {
    [Construct(NewRpcAggregator)]
    + (if hasSigner then [Construct(NewStoreSigning)] else [])
    + [Construct(NewRestfulClientAggregator), Construct(NewChainFetchReader)]
  }

  /** What `CreateBatchPosterDAS` returns: nothing when DA is disabled, a
      configuration error before anything is built, the first failing
      constructor's error, or the RPC aggregator (signed when a signer is
      given) as writer and the chain-checked REST aggregator as reader. */
  function BatchPosterOutcome(cfg: Config, fails: set<Ctor>, hasSigner: bool): (r: Outcome<Option<BatchPosterDas>>)
    ensures !cfg.enable ==> r == Ok(None)
    ensures cfg.enable && !(cfg.rpcAggregatorEnable && cfg.restAggregator.enable) ==>
      r == Err(ConfigError(RpcAndRestAggregatorRequired))
    ensures cfg.enable && cfg.ipfsStorageEnable ==> r.Err? && r.error.ConfigError?
    ensures cfg.enable && cfg.rpcAggregatorEnable && cfg.restAggregator.enable && cfg.ipfsStorageEnable ==>
      r == Err(ConfigError(IpfsForbiddenForBatchPoster))
    ensures cfg.enable && r.Ok? ==> r.value.Some?
    ensures r.Ok? && r.value.Some? ==>
      r.value.value.reader == ChainFetch(RestAggregator) &&
      r.value.value.writer == (if hasSigner then StoreSigning(RpcAggregator) else RpcAggregator)
    ensures r != Panic
  {
    if !cfg.enable then Ok(None)
    else match BatchPosterConfigCheck(cfg)
      case Some(rule) => Err(ConfigError(rule))
      case None =>
        var writer := if hasSigner then StoreSigning(RpcAggregator) else RpcAggregator;
        Run(BatchPosterPlan(hasSigner), fails, Some(BatchPosterDas(writer, ChainFetch(RestAggregator))))
  }

  /** `dataSigner != nil` is `hasSigner`. The L1 reader and the inbox address
      only reach `NewChainFetchReader`, whose failure is in `fails`. */
  method CreateBatchPosterDAS(cfg: Config, fails: set<Ctor>, hasSigner: bool)
    returns (r: Outcome<Option<BatchPosterDas>>, lm: LifecycleManager?)
    ensures r == BatchPosterOutcome(cfg, fails, hasSigner)
    ensures lm != null <==> r.Ok? && r.value.Some?
    ensures lm != null ==> fresh(lm) && lm.registered == [RestAggregator]
  {
    if !cfg.enable {
      return Ok(None), null;
    }
    if !cfg.rpcAggregatorEnable || !cfg.restAggregator.enable {
      return Err(ConfigError(RpcAndRestAggregatorRequired)), null;
    }
    if cfg.ipfsStorageEnable {
      return Err(ConfigError(IpfsForbiddenForBatchPoster)), null;
    }
    ghost var rest := (if hasSigner then [Construct(NewStoreSigning)] else [])
      + [Construct(NewRestfulClientAggregator), Construct(NewChainFetchReader)];
    ghost var value := Some(BatchPosterDas(if hasSigner then StoreSigning(RpcAggregator) else RpcAggregator, ChainFetch(RestAggregator)));
    assert BatchPosterPlan(hasSigner) == [Construct(NewRpcAggregator)] + rest;
    RunCons(Construct(NewRpcAggregator), rest, fails, value);

    if NewRpcAggregator in fails {
      return Err(ConstructorError(NewRpcAggregator)), null;
    }
    var daWriter := RpcAggregator;
    if hasSigner {
      RunCons(Construct(NewStoreSigning), rest[1..], fails, value);
      assert rest == [Construct(NewStoreSigning)] + rest[1..];
      if NewStoreSigning in fails {
        return Err(ConstructorError(NewStoreSigning)), null;
      }
      daWriter := StoreSigning(daWriter);
      rest := rest[1..];
    }
    RunCons(Construct(NewRestfulClientAggregator), [Construct(NewChainFetchReader)], fails, value);
    if NewRestfulClientAggregator in fails {
      return Err(ConstructorError(NewRestfulClientAggregator)), null;
    }
    var restAgg := RestAggregator;
    // restAgg.Start(ctx): the aggregator's background work is not modelled.
    lm := new LifecycleManager();
    lm.Register(restAgg);
    var daReader := restAgg;
    RunCons(Construct(NewChainFetchReader), [], fails, value);
    if NewChainFetchReader in fails {
      return Err(ConstructorError(NewChainFetchReader)), null;
    }
    daReader := ChainFetch(daReader);
    return Ok(Some(BatchPosterDas(daWriter, daReader))), lm;
  }
}
