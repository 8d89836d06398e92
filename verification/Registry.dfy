/** The event registry of internal/decode/registry.go. */
module EventRegistry {
  import opened Prelude
  import opened Chains
  import opened Hexadecimal

  datatype Event = Event(id: Topic, name: string)

  datatype EventSpec = EventSpec(contractAddress: Address, eventName: string, event: Event)

  type Abi = map<string, Event>

  datatype ContractSpec = ContractSpec(address: string, abiPath: string, events: seq<string>)

  datatype LoadError =
    | CannotReadAbi(path: string)
    | CannotParseAbi(path: string)
    | EventNotFound(name: string, path: string)

  /**
   * What the registry is given by libraries and files: the address that a text denotes, the contents of
   * files, the events of an ABI text, and which letters of an address text the checksum capitalises.
   */
  datatype Env = Env(parseAddress: string -> Address, readFile: string -> Option<string>,
                     parseAbi: string -> Option<Abi>, capitals: Address -> seq<bool>)

  /** Two lower-case digits for each byte. */
  function HexBytes(bs: seq<byte>): (s: string)
    ensures |s| == 2 * |bs|
  {
    if bs == [] then "" else HexBytes(bs[..|bs| - 1]) + [HexDigit(bs[|bs| - 1] / 16), HexDigit(bs[|bs| - 1] % 16)]
  }

  function TopicHex(t: Topic): string {
    "0x" + HexBytes(t)
  }

  function Upper(c: char): char {
    if 'a' <= c <= 'z' then (c as int - 32) as char else c
  }

  function Capitalised(s: string, capitals: seq<bool>): (r: string)
    ensures |r| == |s|
  {
    if s == [] then []
    else
      var n := |s| - 1;
      Capitalised(s[..n], capitals) + [if n < |capitals| && capitals[n] then Upper(s[n]) else s[n]]
  }

  /** The checksummed text of an address. */
  function AddressHex(env: Env, a: Address): string {
    "0x" + Capitalised(HexBytes(a), env.capitals(a))
  }

  function TopicAddressKey(env: Env, t: Topic, a: Address): string {
    Lower(TopicHex(t) + "|" + AddressHex(env, a))
  }

  lemma {:induction false} LowerAppend(s: string, t: string)
    ensures Lower(s + t) == Lower(s) + Lower(t)
  {
    if t == [] {
      assert s + t == s;
    } else {
      LowerAppend(s, t[..|t| - 1]);
      assert (s + t)[..|s + t| - 1] == s + t[..|t| - 1];
    }
  }

  predicate IsLowerDigit(c: char) {
    '0' <= c <= '9' || 'a' <= c <= 'f'
  }

  lemma DigitIsLower(c: char)
    requires IsLowerDigit(c)
    ensures Lower([c]) == [c] && Lower([Upper(c)]) == [c]
  {
    assert [c][..0] == [] && [Upper(c)][..0] == [];
  }

  lemma {:induction false} HexBytesDigits(bs: seq<byte>)
    ensures forall i | 0 <= i < |HexBytes(bs)| :: IsLowerDigit(HexBytes(bs)[i])
  {
    if bs != [] {
      HexBytesDigits(bs[..|bs| - 1]);
    }
  }

  lemma LowerOfNothing()
    ensures Lower([]) == []
  {
  }

  /** Lower-casing undoes whatever capitals the checksum put in. */
  lemma {:induction false} LowerUndoesCapitals(s: string, capitals: seq<bool>)
    requires forall i | 0 <= i < |s| :: IsLowerDigit(s[i])
    ensures Lower(Capitalised(s, capitals)) == s && Lower(s) == s
  {
    hide Upper, IsLowerDigit, Lower;
    if s == [] {
      LowerOfNothing();
    } else {
      var n := |s| - 1;
      LowerUndoesCapitals(s[..n], capitals);
      DigitIsLower(s[n]);
      LowerAppend(Capitalised(s[..n], capitals), [if n < |capitals| && capitals[n] then Upper(s[n]) else s[n]]);
      LowerAppend(s[..n], [s[n]]);
      assert s == s[..n] + [s[n]];
    }
  }

  lemma DigitsAreDistinct(c: nat, d: nat)
    requires c < 16 && d < 16 && HexDigit(c) == HexDigit(d)
    ensures c == d
  {
  }

  lemma HexBytesLast(bs: seq<byte>)
    requires bs != []
    ensures var n := |bs| - 1;
            HexBytes(bs)[..2 * n] == HexBytes(bs[..n]) &&
            HexBytes(bs)[2 * n] == HexDigit(bs[n] / 16) && HexBytes(bs)[2 * n + 1] == HexDigit(bs[n] % 16)
  {
    hide HexDigit;
  }

  lemma SameLastByte(a: seq<byte>, b: seq<byte>)
    requires HexBytes(a) == HexBytes(b) && a != []
    ensures |b| == |a| && a[|a| - 1] == b[|b| - 1] && HexBytes(a[..|a| - 1]) == HexBytes(b[..|b| - 1])
  {
    hide HexBytes, HexDigit;
    var n := |a| - 1;
    HexBytesLast(a);
    HexBytesLast(b);
    DigitsAreDistinct(a[n] / 16, b[n] / 16);
    DigitsAreDistinct(a[n] % 16, b[n] % 16);
  }

  lemma {:induction false} HexBytesInjective(a: seq<byte>, b: seq<byte>)
    requires HexBytes(a) == HexBytes(b)
    ensures a == b
  {
    hide HexBytes;
    if a != [] {
      var n := |a| - 1;
      SameLastByte(a, b);
      HexBytesInjective(a[..n], b[..n]);
      assert a == a[..n] + [a[n]] && b == b[..n] + [b[n]];
    }
  }

  lemma LowerOfPunctuation()
    ensures Lower("|") == "|" && Lower("0x") == "0x"
  {
    assert "|"[..0] == "" && "0x"[..1] == "0" && "0"[..0] == "";
  }

  /** A prefixed text of digits, capitalised or not, is in lower case what it is without capitals. */
  lemma LowerOfHex(bs: seq<byte>, capitals: seq<bool>)
    ensures Lower("0x" + Capitalised(HexBytes(bs), capitals)) == "0x" + HexBytes(bs)
    ensures Lower("0x" + HexBytes(bs)) == "0x" + HexBytes(bs)
  {
    hide Lower, HexBytes, Capitalised;
    HexBytesDigits(bs);
    LowerUndoesCapitals(HexBytes(bs), capitals);
    LowerAppend("0x", HexBytes(bs));
    LowerAppend("0x", Capitalised(HexBytes(bs), capitals));
    LowerOfPunctuation();
  }

  /** The key is the lower-case text of the topic and of the address, checksum or not. */
  lemma KeyText(env: Env, t: Topic, a: Address)
    ensures TopicAddressKey(env, t, a) == "0x" + HexBytes(t) + "|" + "0x" + HexBytes(a)
  {
    hide Lower, HexBytes, Capitalised;
    LowerOfHex(t, []);
    LowerOfHex(a, env.capitals(a));
    LowerAppend(TopicHex(t) + "|", AddressHex(env, a));
    LowerAppend(TopicHex(t), "|");
    LowerOfPunctuation();
    assert "0x" + HexBytes(t) + "|" + ("0x" + HexBytes(a)) == "0x" + HexBytes(t) + "|" + "0x" + HexBytes(a);
  }

  lemma KeyIsInjective(env: Env, t: Topic, a: Address, u: Topic, b: Address)
    requires TopicAddressKey(env, t, a) == TopicAddressKey(env, u, b)
    ensures t == u && a == b
  {
    hide TopicAddressKey, HexBytes;
    KeyText(env, t, a);
    KeyText(env, u, b);
    var k := TopicAddressKey(env, t, a);
    assert HexBytes(t) == k[2..66] == HexBytes(u);
    assert HexBytes(a) == k[69..] == HexBytes(b);
    HexBytesInjective(t, u);
    HexBytesInjective(a, b);
  }

  /** The last registration of the topic, whatever the contract. */
  function LastForTopic(specs: seq<EventSpec>, t: Topic): Option<EventSpec> {
    if specs == [] then None
    else if specs[|specs| - 1].event.id == t then Some(specs[|specs| - 1])
    else LastForTopic(specs[..|specs| - 1], t)
  }

  /** The last registration of the topic by the contract. */
  function LastForContract(specs: seq<EventSpec>, t: Topic, a: Address): Option<EventSpec> {
    if specs == [] then None
    else
      var last := specs[|specs| - 1];
      if last.event.id == t && last.contractAddress == a then Some(last)
      else LastForContract(specs[..|specs| - 1], t, a)
  }

  /** The contract's own definition first, any definition of the topic otherwise. */
  function Resolve(specs: seq<EventSpec>, t: Topic, a: Address): Option<EventSpec> {
    if LastForContract(specs, t, a).Some? then LastForContract(specs, t, a) else LastForTopic(specs, t)
  }

  lemma {:induction false} OwnIsFound(specs: seq<EventSpec>, t: Topic, a: Address, i: nat)
    requires i < |specs| && specs[i].event.id == t && specs[i].contractAddress == a
    ensures LastForContract(specs, t, a).Some?
  {
    if i < |specs| - 1 {
      OwnIsFound(specs[..|specs| - 1], t, a, i);
    }
  }

  /**
   * A contract's own most recent definition is used, no matter what other contracts registered before or
   * after it; another contract's definition only when it has none.
   */
  lemma {:induction false} OwnLatestDefinitionWins(specs: seq<EventSpec>, t: Topic, a: Address, i: nat)
    requires i < |specs| && specs[i].event.id == t && specs[i].contractAddress == a
    requires forall j | i < j < |specs| :: !(specs[j].event.id == t && specs[j].contractAddress == a)
    ensures Resolve(specs, t, a) == Some(specs[i])
  {
    if i < |specs| - 1 {
      var init := specs[..|specs| - 1];
      assert forall j | 0 <= j < |init| :: init[j] == specs[j];
      OwnLatestDefinitionWins(init, t, a, i);
      OwnIsFound(init, t, a, i);
    }
  }

  /** The registration that decodes a log: the contract's own latest one, or the latest of any when it has none. */
  ghost predicate Chosen(specs: seq<EventSpec>, t: Topic, a: Address, i: nat) {
    i < |specs| && specs[i].event.id == t &&
    if exists j :: 0 <= j < |specs| && specs[j].event.id == t && specs[j].contractAddress == a then
      specs[i].contractAddress == a &&
      forall j | i < j < |specs| :: !(specs[j].event.id == t && specs[j].contractAddress == a)
    else forall j | i < j < |specs| :: specs[j].event.id != t
  }

  lemma {:induction false} LatestOfTopicIsFound(specs: seq<EventSpec>, t: Topic, i: nat)
    requires i < |specs| && specs[i].event.id == t && forall j | i < j < |specs| :: specs[j].event.id != t
    ensures LastForTopic(specs, t) == Some(specs[i])
  {
    if i < |specs| - 1 {
      LatestOfTopicIsFound(specs[..|specs| - 1], t, i);
    }
  }

  lemma {:induction false} NoneOfItsOwn(specs: seq<EventSpec>, t: Topic, a: Address)
    requires forall j | 0 <= j < |specs| :: !(specs[j].event.id == t && specs[j].contractAddress == a)
    ensures LastForContract(specs, t, a).None?
  {
    if specs != [] {
      NoneOfItsOwn(specs[..|specs| - 1], t, a);
    }
  }

  lemma ChosenIsResolved(specs: seq<EventSpec>, t: Topic, a: Address, i: nat)
    requires Chosen(specs, t, a, i)
    ensures Resolve(specs, t, a) == Some(specs[i])
  {
    if specs[i].contractAddress == a {
      OwnLatestDefinitionWins(specs, t, a, i);
    } else {
      NoneOfItsOwn(specs, t, a);
      LatestOfTopicIsFound(specs, t, i);
    }
  }

  /** A topic resolves exactly when some contract registered it, and then to an event with that topic. */
  lemma {:induction false} ResolvesIffRegistered(specs: seq<EventSpec>, t: Topic, a: Address)
    ensures LastForTopic(specs, t).Some? <==> exists i :: 0 <= i < |specs| && specs[i].event.id == t
    ensures Resolve(specs, t, a).Some? <==> exists i :: 0 <= i < |specs| && specs[i].event.id == t
    ensures Resolve(specs, t, a).Some? ==> Resolve(specs, t, a).value.event.id == t
  {
    if specs != [] {
      var init, last := specs[..|specs| - 1], specs[|specs| - 1];
      ResolvesIffRegistered(init, t, a);
      if last.event.id == t {
        assert specs[|specs| - 1].event.id == t;
      } else if i :| 0 <= i < |specs| && specs[i].event.id == t {
        assert init[i].event.id == t;
      }
      if i :| 0 <= i < |init| && init[i].event.id == t {
        assert specs[i].event.id == t;
      }
    }
  }

  /** The registrations of one contract's events, in order. */
  function EventsOf(abi: Abi, a: Address, names: seq<string>): Option<seq<EventSpec>> {
    if names == [] then Some([])
    else
      var before := EventsOf(abi, a, names[..|names| - 1]);
      var name := names[|names| - 1];
      if before.Some? && name in abi then Some(before.value + [EventSpec(a, abi[name].name, abi[name])]) else None
  }

  /** The events of the ABI that the contract names, if file and text are good. */
  function AbiOf(env: Env, c: ContractSpec): Option<Abi> {
    var text := env.readFile(c.abiPath);
    if text.Some? then env.parseAbi(text.value) else None
  }

  /** All registrations in load order, if every file, text and event name is good. */
  function Registrations(env: Env, contracts: seq<ContractSpec>): Option<seq<EventSpec>> {
    if contracts == [] then Some([])
    else
      var before := Registrations(env, contracts[..|contracts| - 1]);
      var c := contracts[|contracts| - 1];
      var abi := AbiOf(env, c);
      if before.None? || abi.None? then None
      else
        var own := EventsOf(abi.value, env.parseAddress(c.address), c.events);
        if own.Some? then Some(before.value + own.value) else None
  }

  /** A contract's events are registered exactly when its ABI has them all. */
  lemma {:induction false} EventsOfIff(abi: Abi, a: Address, names: seq<string>)
    ensures EventsOf(abi, a, names).Some? <==> forall name | name in names :: name in abi
    ensures EventsOf(abi, a, names).Some? ==> |EventsOf(abi, a, names).value| == |names|
  {
    if names != [] {
      var n := |names| - 1;
      EventsOfIff(abi, a, names[..n]);
      assert names == names[..n] + [names[n]];
    }
  }

  /** One registration for each name, in order. */
  lemma {:induction false} EventsOfMeaning(abi: Abi, a: Address, names: seq<string>, i: nat)
    requires EventsOf(abi, a, names).Some? && i < |names|
    ensures var own := EventsOf(abi, a, names).value;
            |own| == |names| && names[i] in abi && own[i].contractAddress == a && own[i].event == abi[names[i]] &&
            own[i].eventName == abi[names[i]].name
  {
    var n := |names| - 1;
    EventsOfIff(abi, a, names);
    EventsOfIff(abi, a, names[..n]);
    if i < n {
      EventsOfMeaning(abi, a, names[..n], i);
    }
  }

  /** The k-th name is the first that the ABI lacks. */
  ghost predicate FirstMissing(abi: Abi, names: seq<string>, k: nat) {
    k < |names| && names[k] !in abi && forall j | 0 <= j < k :: names[j] in abi
  }

  /** File, text and every named event of the contract are good. */
  ghost predicate Loadable(env: Env, c: ContractSpec) {
    var text := env.readFile(c.abiPath);
    text.Some? && env.parseAbi(text.value).Some? &&
    forall name | name in c.events :: name in env.parseAbi(text.value).value
  }

  /** The contract names an event of its ABI that has this topic. */
  ghost predicate Names(env: Env, c: ContractSpec, name: string, t: Topic)
    requires Loadable(env, c)
  {
    name in c.events && env.parseAbi(env.readFile(c.abiPath).value).value[name].id == t
  }

  lemma OwnTopics(env: Env, c: ContractSpec, t: Topic)
    requires Loadable(env, c)
    ensures AbiOf(env, c).Some?
    ensures var own := EventsOf(AbiOf(env, c).value, env.parseAddress(c.address), c.events);
            own.Some? && ((exists s :: s in own.value && s.event.id == t) <==> exists name :: Names(env, c, name, t))
  {
    hide EventsOf;
    var abi := AbiOf(env, c).value;
    EventsOfIff(abi, env.parseAddress(c.address), c.events);
    var own := EventsOf(abi, env.parseAddress(c.address), c.events).value;
    if s :| s in own && s.event.id == t {
      var i :| 0 <= i < |own| && own[i] == s;
      EventsOfMeaning(abi, env.parseAddress(c.address), c.events, i);
      assert Names(env, c, c.events[i], t);
    }
    if name :| Names(env, c, name, t) {
      var i :| 0 <= i < |c.events| && c.events[i] == name;
      EventsOfMeaning(abi, env.parseAddress(c.address), c.events, i);
      assert own[i] in own;
    }
  }

  lemma RegistrationsOneMore(env: Env, contracts: seq<ContractSpec>)
    requires contracts != []
    ensures var n := |contracts| - 1;
            Registrations(env, contracts).Some? <==>
              Registrations(env, contracts[..n]).Some? && Loadable(env, contracts[n])
    ensures Registrations(env, contracts).Some? ==>
              var n := |contracts| - 1;
              var own := EventsOf(AbiOf(env, contracts[n]).value, env.parseAddress(contracts[n].address),
                                  contracts[n].events);
              own.Some? &&
              Registrations(env, contracts).value == Registrations(env, contracts[..n]).value + own.value
  {
    var c := contracts[|contracts| - 1];
    if AbiOf(env, c).Some? {
      EventsOfIff(AbiOf(env, c).value, env.parseAddress(c.address), c.events);
    }
  }

  /** Loading succeeds exactly when every contract can be loaded, and the topics are those of the named events. */
  lemma {:induction false} RegistrationsMeaning(env: Env, contracts: seq<ContractSpec>, t: Topic)
    ensures Registrations(env, contracts).Some? <==> forall c | c in contracts :: Loadable(env, c)
    ensures Registrations(env, contracts).Some? ==>
              ((exists s :: s in Registrations(env, contracts).value && s.event.id == t) <==>
               (exists c, name :: c in contracts && Loadable(env, c) && Names(env, c, name, t)))
  {
    if contracts != [] {
      hide Registrations, Loadable, Names, EventsOf;
      var n := |contracts| - 1;
      var before, c := contracts[..n], contracts[n];
      RegistrationsMeaning(env, before, t);
      RegistrationsOneMore(env, contracts);
      assert contracts == before + [c];
      if Registrations(env, contracts).Some? {
        OwnTopics(env, c, t);
      }
    }
  }

  ghost predicate IndexesByTopic(m: map<Topic, EventSpec>, specs: seq<EventSpec>) {
    forall t: Topic :: (if t in m then Some(m[t]) else None) == LastForTopic(specs, t)
  }

  ghost predicate IndexesByBoth(env: Env, m: map<string, EventSpec>, specs: seq<EventSpec>) {
    forall t: Topic, a: Address ::
      (if TopicAddressKey(env, t, a) in m then Some(m[TopicAddressKey(env, t, a)]) else None) ==
        LastForContract(specs, t, a)
  }

  lemma TopicIndexGrows(m: map<Topic, EventSpec>, specs: seq<EventSpec>, spec: EventSpec)
    requires IndexesByTopic(m, specs)
    ensures IndexesByTopic(m[spec.event.id := spec], specs + [spec])
  {
    assert (specs + [spec])[..|specs|] == specs;
  }

  lemma BothIndexGrows(env: Env, m: map<string, EventSpec>, specs: seq<EventSpec>, spec: EventSpec)
    requires IndexesByBoth(env, m, specs)
    ensures IndexesByBoth(env, m[TopicAddressKey(env, spec.event.id, spec.contractAddress) := spec], specs + [spec])
  {
    hide TopicAddressKey;
    assert (specs + [spec])[..|specs|] == specs;
    forall t: Topic, a: Address
      | TopicAddressKey(env, t, a) == TopicAddressKey(env, spec.event.id, spec.contractAddress)
      ensures t == spec.event.id && a == spec.contractAddress
    {
      KeyIsInjective(env, t, a, spec.event.id, spec.contractAddress);
    }
  }

  /** The event lookup finds something for the entry. */
  predicate Recognised(specs: seq<EventSpec>, e: Entry) {
    e.topics != [] && Resolve(specs, e.topics[0], e.address).Some?
  }

  /** Every log that passes the registry's filter finds an event if and only if some event was registered. */
  lemma LookupIsTotalOnFilterIff(specs: seq<EventSpec>, filter: Filter)
    requires |filter.topics| == |specs| && forall i | 0 <= i < |specs| :: filter.topics[i] == specs[i].event.id
    ensures (forall e: Entry | filter.Passes(e) :: Recognised(specs, e)) <==> specs != []
  {
    if specs != [] {
      forall e: Entry | filter.Passes(e)
        ensures Recognised(specs, e)
      {
        var i :| 0 <= i < |filter.topics| && filter.topics[i] == e.topics[0];
        assert specs[i].event.id == e.topics[0];
        ResolvesIffRegistered(specs, e.topics[0], e.address);
      }
    } else {
      var address: Address := if filter.addresses == [] then seq(20, _ => 0) else filter.addresses[0];
      var topic: Topic := seq(32, _ => 0);
      var e := Entry(address, [topic], "", "", 0);
      assert filter.Passes(e) && !Recognised(specs, e);
    }
  }

  class Registry {
    var byTopicAddress: map<string, EventSpec>
    var byTopic: map<Topic, EventSpec>
    var addresses: seq<Address>
    var topic0s: seq<Topic>

    constructor ()
      ensures byTopicAddress == map[] && byTopic == map[] && addresses == [] && topic0s == []
    {
      byTopicAddress, byTopic, addresses, topic0s := map[], map[], [], [];
    }

    /** The two indexes give the last registration of a topic, by contract and overall. */
    ghost predicate Indexes(env: Env, specs: seq<EventSpec>)
      reads this
    {
      IndexesByTopic(byTopic, specs) && IndexesByBoth(env, byTopicAddress, specs) &&
      |topic0s| == |specs| && forall i | 0 <= i < |specs| :: topic0s[i] == specs[i].event.id
    }

    function LogFilter(): Filter
      reads this
    {
      Filter(addresses, topic0s)
    }

    method Register(env: Env, spec: EventSpec, ghost specs: seq<EventSpec>)
      requires Indexes(env, specs)
      modifies this`byTopicAddress, this`byTopic, this`topic0s
      ensures Indexes(env, specs + [spec])
    {
      var key := TopicAddressKey(env, spec.event.id, spec.contractAddress);
      TopicIndexGrows(byTopic, specs, spec);
      BothIndexGrows(env, byTopicAddress, specs, spec);
      byTopicAddress := byTopicAddress[key := spec];
      byTopic := byTopic[spec.event.id := spec];
      topic0s := topic0s + [spec.event.id];
    }

    method RegisterEvents(env: Env, abi: Abi, addr: Address, c: ContractSpec, ghost specs: seq<EventSpec>)
      returns (err: Option<LoadError>)
      requires Indexes(env, specs)
      modifies this`byTopicAddress, this`byTopic, this`topic0s
      ensures err.None? <==> EventsOf(abi, addr, c.events).Some?
      ensures err.Some? ==>
                exists k: nat ::
                  FirstMissing(abi, c.events, k) && err.value == EventNotFound(c.events[k], c.abiPath)
      ensures err.None? ==> Indexes(env, specs + EventsOf(abi, addr, c.events).value)
    {
      ghost var own := [];
      assert specs + own == specs;
      for i := 0 to |c.events|
        invariant EventsOf(abi, addr, c.events[..i]) == Some(own)
        invariant Indexes(env, specs + own)
      {
        assert c.events[..i + 1][..i] == c.events[..i];
        var name := c.events[i];
        if name !in abi {
          EventsOfIff(abi, addr, c.events);
          EventsOfIff(abi, addr, c.events[..i]);
          assert forall j | 0 <= j < i :: c.events[j] == c.events[..i][j];
          assert FirstMissing(abi, c.events, i);
          return Some(EventNotFound(name, c.abiPath));
        }
        var spec := EventSpec(addr, abi[name].name, abi[name]);
        Register(env, spec, specs + own);
        assert specs + own + [spec] == specs + (own + [spec]);
        own := own + [spec];
      }
      assert c.events[..|c.events|] == c.events;
      return None;
    }
  }

  /** The n-th contract is the first that cannot be loaded, for this reason. */
  ghost predicate RefusedAt(env: Env, contracts: seq<ContractSpec>, n: nat, err: LoadError) {
    n < |contracts| && (forall i | 0 <= i < n :: Loadable(env, contracts[i])) &&
    var c := contracts[n];
    var text := env.readFile(c.abiPath);
    if text.None? then err == CannotReadAbi(c.abiPath)
    else if env.parseAbi(text.value).None? then err == CannotParseAbi(c.abiPath)
    else exists k: nat ::
           FirstMissing(env.parseAbi(text.value).value, c.events, k) && err == EventNotFound(c.events[k], c.abiPath)
  }

  lemma RefusedIsNotLoadable(env: Env, contracts: seq<ContractSpec>, n: nat, err: LoadError)
    requires RefusedAt(env, contracts, n, err)
    ensures !Loadable(env, contracts[n]) && Registrations(env, contracts).None?
  {
    RegistrationsMeaning(env, contracts, seq(32, _ => 0));
  }

  lemma NothingRegistered(env: Env, contracts: seq<ContractSpec>)
    requires |contracts| == 0
    ensures Registrations(env, contracts) == Some([])
  {
  }

  lemma LoadableSoFar(env: Env, contracts: seq<ContractSpec>, n: nat)
    requires n < |contracts| && Registrations(env, contracts[..n]).Some?
    ensures forall i | 0 <= i < n :: Loadable(env, contracts[i])
  {
    hide Registrations, Loadable;
    RegistrationsMeaning(env, contracts[..n], seq(32, _ => 0));
    assert forall i | 0 <= i < n :: contracts[i] == contracts[..n][i];
  }

  lemma OneMoreLoaded(env: Env, contracts: seq<ContractSpec>, n: nat)
    requires n < |contracts| && Registrations(env, contracts[..n]).Some? && AbiOf(env, contracts[n]).Some?
    ensures var own := EventsOf(AbiOf(env, contracts[n]).value, env.parseAddress(contracts[n].address),
                                contracts[n].events);
            own.Some? ==>
              Registrations(env, contracts[..n + 1]) == Some(Registrations(env, contracts[..n]).value + own.value)
  {
    hide EventsOf;
    assert contracts[..n + 1][..n] == contracts[..n];
  }

  /** One of the contracts has the event's address and names an event with its topic. */
  ghost predicate Wanted(env: Env, contracts: seq<ContractSpec>, e: Entry) {
    e.topics != [] &&
    exists c, name ::
      c in contracts && env.parseAddress(c.address) == e.address && Loadable(env, c) && Names(env, c, name, e.topics[0])
  }

  /** The filter asks for every wanted event, and for no other address or topic. */
  lemma FilterIsComplete(env: Env, contracts: seq<ContractSpec>, specs: seq<EventSpec>, filter: Filter, e: Entry)
    requires Registrations(env, contracts) == Some(specs)
    requires |filter.topics| == |specs| && forall i | 0 <= i < |specs| :: filter.topics[i] == specs[i].event.id
    requires |filter.addresses| == |contracts|
    requires forall i | 0 <= i < |contracts| :: filter.addresses[i] == env.parseAddress(contracts[i].address)
    ensures Wanted(env, contracts, e) ==> filter.Passes(e)
    ensures filter.Passes(e) && contracts != [] ==>
              exists c :: c in contracts && env.parseAddress(c.address) == e.address
    ensures filter.Passes(e) && specs != [] ==>
              e.topics != [] && exists c, name :: c in contracts && Loadable(env, c) && Names(env, c, name, e.topics[0])
  {
    hide Registrations, Loadable, Names;
    if |e.topics| > 0 {
      RegistrationsMeaning(env, contracts, e.topics[0]);
      if s :| s in specs && s.event.id == e.topics[0] {
        var i :| 0 <= i < |specs| && specs[i] == s;
        assert filter.topics[i] == e.topics[0];
      }
      if e.topics[0] in filter.topics {
        var i :| 0 <= i < |specs| && filter.topics[i] == e.topics[0];
        assert specs[i] in specs;
      }
    }
    if c :| c in contracts && env.parseAddress(c.address) == e.address {
      var i :| 0 <= i < |contracts| && contracts[i] == c;
      assert filter.addresses[i] == e.address;
    }
    if e.address in filter.addresses {
      var i :| 0 <= i < |contracts| && filter.addresses[i] == e.address;
      assert contracts[i] in contracts;
    }
  }

  /** Load every contract, or stop at the first that cannot be loaded. */
  method LoadRegistry(env: Env, contracts: seq<ContractSpec>) returns (err: Option<LoadError>, reg: Registry)
    ensures fresh(reg)
    ensures err.None? <==> Registrations(env, contracts).Some?
    ensures err.None? <==> forall c | c in contracts :: Loadable(env, c)
    ensures err.Some? ==> exists n: nat :: RefusedAt(env, contracts, n, err.value)
    ensures err.None? ==> reg.Indexes(env, Registrations(env, contracts).value)
    ensures err.None? ==>
              |reg.addresses| == |contracts| &&
              forall i | 0 <= i < |contracts| :: reg.addresses[i] == env.parseAddress(contracts[i].address)
    ensures err.None? ==> forall e | Wanted(env, contracts, e) :: reg.LogFilter().Passes(e)
    ensures err.None? && contracts != [] ==>
              forall e | reg.LogFilter().Passes(e) ::
                exists c :: c in contracts && env.parseAddress(c.address) == e.address
    ensures err.None? ==>
              var specs := Registrations(env, contracts).value;
              (forall e: Entry | reg.LogFilter().Passes(e) :: Recognised(specs, e)) <==> specs != []
  {
    hide TopicAddressKey, Recognised, Wanted, Registrations, Filter.Passes, Loadable;
    reg := new Registry();
    ghost var specs := [];
    NothingRegistered(env, contracts[..0]);
    for n := 0 to |contracts|
      invariant Registrations(env, contracts[..n]) == Some(specs)
      invariant fresh(reg) && reg.Indexes(env, specs) && |reg.addresses| == n
      invariant forall i | 0 <= i < n :: reg.addresses[i] == env.parseAddress(contracts[i].address)
    {
      LoadableSoFar(env, contracts, n);
      var c := contracts[n];
      var addr := env.parseAddress(c.address);
      var text := env.readFile(c.abiPath);
      if text.None? {
        RefusedIsNotLoadable(env, contracts, n, CannotReadAbi(c.abiPath));
        return Some(CannotReadAbi(c.abiPath)), reg;
      }
      var parsed := env.parseAbi(text.value);
      if parsed.None? {
        RefusedIsNotLoadable(env, contracts, n, CannotParseAbi(c.abiPath));
        return Some(CannotParseAbi(c.abiPath)), reg;
      }
      err := reg.RegisterEvents(env, parsed.value, addr, c, specs);
      if err.Some? {
        RefusedIsNotLoadable(env, contracts, n, err.value);
        return;
      }
      OneMoreLoaded(env, contracts, n);
      specs := specs + EventsOf(parsed.value, addr, c.events).value;
      reg.addresses := reg.addresses + [addr];
    }
    assert contracts[..|contracts|] == contracts;
    LookupIsTotalOnFilterIff(specs, reg.LogFilter());
    RegistrationsMeaning(env, contracts, seq(32, _ => 0));
    forall e: Entry
      ensures Wanted(env, contracts, e) ==> reg.LogFilter().Passes(e)
      ensures reg.LogFilter().Passes(e) && contracts != [] ==>
                exists c :: c in contracts && env.parseAddress(c.address) == e.address
    {
      FilterIsComplete(env, contracts, specs, reg.LogFilter(), e);
    }
    return None, reg;
  }

  datatype DecodeError = NoTopics | UnknownTopic | UnpackFailed

  datatype Decoding = Undecodable(error: DecodeError) | Decodable(decoded: Decoded)

  /** Find the log's event among the registrations, then unpack the data with it. */
  function Decode(specs: seq<EventSpec>, unpack: (EventSpec, Entry) -> Option<string>, e: Entry): Decoding {
    if e.topics == [] then Undecodable(NoTopics)
    else
      match Resolve(specs, e.topics[0], e.address)
      case None => Undecodable(UnknownTopic)
      case Some(spec) =>
        var args := unpack(spec, e);
        if args.Some? then Decodable(Decoded(spec.eventName, args.value)) else Undecodable(UnpackFailed)
  }

  /** The event chosen for the log gives its name, and its data the arguments; the errors come in this order. */
  lemma DecodesByChosen(specs: seq<EventSpec>, unpack: (EventSpec, Entry) -> Option<string>, e: Entry)
    ensures |e.topics| == 0 ==> Decode(specs, unpack, e) == Undecodable(NoTopics)
    ensures |e.topics| > 0 && (forall s | s in specs :: s.event.id != e.topics[0]) ==>
              Decode(specs, unpack, e) == Undecodable(UnknownTopic)
    ensures forall i: nat | |e.topics| > 0 && Chosen(specs, e.topics[0], e.address, i) ::
              Decode(specs, unpack, e) == match unpack(specs[i], e)
                                          case Some(args) => Decodable(Decoded(specs[i].eventName, args))
                                          case None => Undecodable(UnpackFailed)
  {
    hide Resolve;
    if |e.topics| > 0 {
      ResolvesIffRegistered(specs, e.topics[0], e.address);
      forall i: nat | Chosen(specs, e.topics[0], e.address, i)
        ensures Resolve(specs, e.topics[0], e.address) == Some(specs[i])
      {
        ChosenIsResolved(specs, e.topics[0], e.address, i);
      }
    }
  }

  /** The registry's two maps find the event that the list of registrations determines. */
  method DecodeLog(env: Env, reg: Registry, e: Entry, unpack: (EventSpec, Entry) -> Option<string>,
                   ghost specs: seq<EventSpec>)
    returns (r: Decoding)
    requires reg.Indexes(env, specs)
    ensures r == Decode(specs, unpack, e)
    ensures |e.topics| == 0 ==> r == Undecodable(NoTopics)
    ensures |e.topics| > 0 && (forall s | s in specs :: s.event.id != e.topics[0]) ==> r == Undecodable(UnknownTopic)
    ensures forall i: nat | |e.topics| > 0 && Chosen(specs, e.topics[0], e.address, i) ::
              r == match unpack(specs[i], e)
                   case Some(args) => Decodable(Decoded(specs[i].eventName, args))
                   case None => Undecodable(UnpackFailed)
  {
    DecodesByChosen(specs, unpack, e);
    hide TopicAddressKey, Chosen;
    if |e.topics| == 0 {
      return Undecodable(NoTopics);
    }
    var topic0 := e.topics[0];
    var key := TopicAddressKey(env, topic0, e.address);
    var spec: EventSpec;
    if key in reg.byTopicAddress {
      spec := reg.byTopicAddress[key];
    } else if topic0 in reg.byTopic {
      spec := reg.byTopic[topic0];
    } else {
      return Undecodable(UnknownTopic);
    }
    assert Resolve(specs, topic0, e.address) == Some(spec);
    var args := unpack(spec, e);
    if args.None? {
      return Undecodable(UnpackFailed);
    }
    return Decodable(Decoded(spec.eventName, args.value));
  }

  /** A log is decoded exactly when its event is recognised and its data unpack, and then under the event's name. */
  lemma DecodesIff(specs: seq<EventSpec>, unpack: (EventSpec, Entry) -> Option<string>, e: Entry)
    ensures Decode(specs, unpack, e).Decodable? <==>
              Recognised(specs, e) && unpack(Resolve(specs, e.topics[0], e.address).value, e).Some?
    ensures Decode(specs, unpack, e) == Undecodable(UnpackFailed) ==> Recognised(specs, e)
    ensures Decode(specs, unpack, e).Decodable? ==>
              Decode(specs, unpack, e).decoded.eventName == Resolve(specs, e.topics[0], e.address).value.eventName
  {
    hide Resolve;
  }

  /** The feed that a loaded registry gives the indexer. */
  function FeedOf(chainId: uint64, filter: Filter, specs: seq<EventSpec>,
                  unpack: (EventSpec, Entry) -> Option<string>): Feed {
    Feed(chainId, filter, (l: Log) =>
      var r := Decode(specs, unpack, l.entry);
      if r.Decodable? then Some(r.decoded) else None)
  }

  /** When unpacking never fails, the indexer can decode everything it asks for iff some event is registered. */
  lemma FeedIsTotalIff(chainId: uint64, filter: Filter, specs: seq<EventSpec>,
                       unpack: (EventSpec, Entry) -> Option<string>)
    requires |filter.topics| == |specs| && forall i | 0 <= i < |specs| :: filter.topics[i] == specs[i].event.id
    requires forall s: EventSpec, e: Entry :: unpack(s, e).Some?
    ensures TotalDecoder(FeedOf(chainId, filter, specs, unpack)) <==> specs != []
  {
    hide Filter.Passes, Resolve;
    LookupIsTotalOnFilterIff(specs, filter);
    var feed := FeedOf(chainId, filter, specs, unpack);
    if TotalDecoder(feed) {
      forall e: Entry | filter.Passes(e)
        ensures Recognised(specs, e)
      {
        assert feed.decode(Log(e, 0, "")).Some?;
        DecodesIff(specs, unpack, e);
      }
    } else {
      var l: Log :| filter.Passes(l.entry) && feed.decode(l).None?;
      DecodesIff(specs, unpack, l.entry);
    }
  }
}
