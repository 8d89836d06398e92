/** Validation and normalisation of the configuration, internal/config/config.go. */
module Configuration {
  import opened Prelude

  datatype ChainConfig = ChainConfig(rpcUrl: string, chainId: uint64)

  datatype ContractConfig = ContractConfig(name: string, address: string, abiPath: string, events: seq<string>)

  datatype ConfigError =
    | NetworksMissing
    | NetworkUnknown
    | RpcUrlMissing
    | ChainIdMissing
    | ChunkSizeMissing
    | DsnMissing
    | ContractsMissing
    | AddressMissing(index: nat)
    | AbiPathMissing(index: nat)
    | EventsMissing(index: nat)

  /** The three chunk sizes of the indexer. */
  datatype Sizes = Sizes(min: uint64, chunk: uint64, max: uint64) {
    predicate Ordered() {
      1 <= min <= chunk <= max
    }
  }

  /** The sizes that validation settles on: a default minimum, a default maximum, then clamping. */
  function Normalised(s: Sizes): Sizes {
    var min := if s.min == 0 then 10 else s.min;
    var max := Max(min, if s.max == 0 then s.chunk else s.max);
    Sizes(min, Min(max, Max(min, s.chunk)), max)
  }

  /** Sizes already in order are kept, every result is in order, so validating twice changes nothing. */
  lemma NormalisedIsAProjection(s: Sizes)
    requires s.chunk != 0
    ensures Normalised(s).Ordered()
    ensures Normalised(s) == s <==> s.Ordered()
    ensures Normalised(Normalised(s)) == Normalised(s)
  {
  }

  /** A given minimum is kept and an unset one is 10; an unset maximum is the chunk size; both ends then clamp. */
  lemma NormalisedMeaning(s: Sizes)
    requires s.chunk != 0
    ensures var r := Normalised(s);
            (s.min != 0 ==> r.min == s.min) && (s.min == 0 ==> r.min == 10) &&
            (s.max == 0 && s.chunk >= r.min ==> r.max == s.chunk) && (s.max >= r.min ==> r.max == s.max) &&
            (s.max < r.min && (s.max > 0 || s.chunk < r.min) ==> r.max == r.min) &&
            (r.min <= s.chunk <= r.max ==> r.chunk == s.chunk) &&
            (s.chunk < r.min ==> r.chunk == r.min) && (s.chunk > r.max ==> r.chunk == r.max)
  {
  }

  predicate Complete(c: ContractConfig) {
    c.address != "" && c.abiPath != "" && c.events != []
  }

  class Config {
    var network: string
    var networks: map<string, ChainConfig>
    var chain: ChainConfig
    var startBlock: uint64
    var confirmations: uint64
    var minChunkSize: uint64
    var chunkSize: uint64
    var maxChunkSize: uint64
    var concurrency: int
    var pollIntervalSeconds: int
    var metricsIntervalSeconds: int
    var driver: string
    var dsn: string
    var contracts: seq<ContractConfig>

    function ChunkSizes(): Sizes
      reads this
    {
      Sizes(minChunkSize, chunkSize, maxChunkSize)
    }

    /** The chain that the network name selects; without a name, the one given directly. */
    function SelectedChain(): Option<ChainConfig>
      reads this
    {
      if network == "" then Some(chain)
      else if network in networks then Some(networks[network])
      else None
    }

    predicate NetworkResolves()
      reads this
    {
      SelectedChain().Some? && SelectedChain().value.rpcUrl != "" && SelectedChain().value.chainId != 0
    }

    predicate Acceptable()
      reads this
    {
      NetworkResolves() && chunkSize != 0 && dsn != "" && contracts != [] &&
      forall c | c in contracts :: Complete(c)
    }

    /** What is wrong with the chain; the checks come in this order. */
    predicate NetworkFault(e: ConfigError)
      reads this
    {
      if network != "" && |networks| == 0 then e == NetworksMissing
      else if network != "" && network !in networks then e == NetworkUnknown
      else
        var selected := if network != "" then networks[network] else chain;
        if selected.rpcUrl == "" then e == RpcUrlMissing
        else selected.chainId == 0 && e == ChainIdMissing
    }

    /** What is wrong with the contracts: the first missing setting of the first contract that misses one. */
    predicate ContractsFault(e: ConfigError)
      reads this
    {
      if contracts == [] then e == ContractsMissing
      else
        (e.AddressMissing? || e.AbiPathMissing? || e.EventsMissing?) && e.index < |contracts| &&
        (forall i | 0 <= i < e.index ::
           contracts[i].address != "" && contracts[i].abiPath != "" && contracts[i].events != []) &&
        var c := contracts[e.index];
        if c.address == "" then e.AddressMissing?
        else if c.abiPath == "" then e.AbiPathMissing?
        else c.events == [] && e.EventsMissing?
    }

    method ResolveNetwork() returns (err: Option<ConfigError>)
      modifies this`chain
      ensures err.None? <==> old(NetworkResolves())
      ensures err.Some? ==> old(NetworkFault(err.value))
      ensures err.None? ==> old(SelectedChain()) == Some(chain) == SelectedChain()
    {
      if network != "" {
        if |networks| == 0 {
          return Some(NetworksMissing);
        }
        if network !in networks {
          return Some(NetworkUnknown);
        }
        chain := networks[network];
      }
      if chain.rpcUrl == "" {
        return Some(RpcUrlMissing);
      }
      if chain.chainId == 0 {
        return Some(ChainIdMissing);
      }
      return None;
    }

    method NormaliseSizes()
      requires chunkSize != 0
      modifies this`minChunkSize, this`chunkSize, this`maxChunkSize
      ensures ChunkSizes() == Normalised(old(ChunkSizes())) && ChunkSizes().Ordered()
    {
      if minChunkSize == 0 {
        minChunkSize := 10;
      }
      if maxChunkSize == 0 {
        maxChunkSize := chunkSize;
      }
      if maxChunkSize < minChunkSize {
        maxChunkSize := minChunkSize;
      }
      if chunkSize < minChunkSize {
        chunkSize := minChunkSize;
      }
      if chunkSize > maxChunkSize {
        chunkSize := maxChunkSize;
      }
    }

    /** The defaults of the settings that do not size chunks. */
    method SetDefaults()
      modifies this`concurrency, this`pollIntervalSeconds, this`metricsIntervalSeconds, this`driver
      ensures concurrency == (if old(concurrency) <= 0 then 4 else old(concurrency))
      ensures pollIntervalSeconds == (if old(pollIntervalSeconds) <= 0 then 10 else old(pollIntervalSeconds))
      ensures metricsIntervalSeconds == (if old(metricsIntervalSeconds) <= 0 then 30 else old(metricsIntervalSeconds))
      ensures driver == (if old(driver) == "" then "sqlite" else old(driver))
    {
      if concurrency <= 0 {
        concurrency := 4;
      }
      if pollIntervalSeconds <= 0 {
        pollIntervalSeconds := 10;
      }
      if metricsIntervalSeconds <= 0 {
        metricsIntervalSeconds := 30;
      }
      if driver == "" {
        driver := "sqlite";
      }
    }

    method CheckContracts() returns (err: Option<ConfigError>)
      ensures err.None? <==> contracts != [] && forall c | c in contracts :: Complete(c)
      ensures err.None? <==>
                contracts != [] &&
                forall c | c in contracts :: c.address != "" && c.abiPath != "" && c.events != []
      ensures err.Some? ==> ContractsFault(err.value)
    {
      if |contracts| == 0 {
        return Some(ContractsMissing);
      }
      for i := 0 to |contracts|
        invariant forall j | 0 <= j < i :: Complete(contracts[j])
      {
        assert contracts[i] in contracts;
        if contracts[i].address == "" {
          return Some(AddressMissing(i));
        }
        if contracts[i].abiPath == "" {
          return Some(AbiPathMissing(i));
        }
        if |contracts[i].events| == 0 {
          return Some(EventsMissing(i));
        }
      }
      return None;
    }

    method Validate() returns (err: Option<ConfigError>)
      modifies this
      ensures err.None? <==> old(Acceptable())
      ensures err.Some? ==>
                if !old(NetworkResolves()) then old(NetworkFault(err.value))
                else if old(chunkSize) == 0 then err.value == ChunkSizeMissing
                else if dsn == "" then err.value == DsnMissing
                else ContractsFault(err.value)
      ensures err.None? ==> ChunkSizes() == Normalised(old(ChunkSizes())) && ChunkSizes().Ordered()
      ensures err.None? ==> concurrency == (if old(concurrency) <= 0 then 4 else old(concurrency)) && concurrency >= 1
      ensures err.None? ==>
                pollIntervalSeconds == (if old(pollIntervalSeconds) <= 0 then 10 else old(pollIntervalSeconds)) &&
                metricsIntervalSeconds ==
                  (if old(metricsIntervalSeconds) <= 0 then 30 else old(metricsIntervalSeconds)) &&
                driver == (if old(driver) == "" then "sqlite" else old(driver))
      ensures err.None? ==> Acceptable()
      ensures network == old(network) && networks == old(networks) && dsn == old(dsn) && contracts == old(contracts)
      ensures startBlock == old(startBlock) && confirmations == old(confirmations)
    {
      hide Normalised, Complete, Config.NetworkFault, Config.ContractsFault;
      err := ResolveNetwork();
      if err.Some? {
        return;
      }
      if chunkSize == 0 {
        return Some(ChunkSizeMissing);
      }
      NormaliseSizes();
      SetDefaults();
      if dsn == "" {
        return Some(DsnMissing);
      }
      err := CheckContracts();
    }
  }
}
