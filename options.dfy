/**
 The option set of the aria2 client: a local cache of option values, global to
 the daemon or scoped to one download, kept in step with the daemon by sending
 every write to it first and caching the new value only once the daemon has
 accepted it.
 */
module Aria2Options {

  import opened Wrappers
  import opened OptionNames
  import opened OptionValues

  /** A download managed by the daemon, identified by its GID. */
  datatype Download = Download(gid: string)

  /** The arguments of one remote `set_options` call: the options to change and
      the downloads they apply to (none: the global options). */
  datatype SetOptionsCall = SetOptionsCall(options: map<string, string>, targets: seq<Download>)

  /** The name under which the option `continue`, a Python keyword, is exposed. */
  const ContinueAttribute := "continue_"

  // ---------------------------------------------------------------------------
  // The state an option set keeps, as values.
  // ---------------------------------------------------------------------------

  /** The targets list kept for an owner: the download alone, or nothing for
      global options. */
  function Targets(owner: Option<Download>): (targets: seq<Download>)
    ensures |targets| <= 1
  {
    if owner.Some? then [owner.value] else []
  }

  /** The value cached under exactly `key` (Python's `dict.get`), or None. */
  function LiteralLookup(store: map<string, string>, key: string): Option<string>
  {
    if key in store then Some(store[key]) else None
  }

  /** A read by name: the value cached under the name's key, or None when
      there is none. */
  function Lookup(store: map<string, string>, name: string): Option<string>
  {
    LiteralLookup(store, Norm(name))
  }

  /** The cache after a write of `text` under `key` that the daemon accepted
      or declined. */
  function Commit(store: map<string, string>, key: string, text: string, accepted: bool): (after: map<string, string>)
    ensures after.Keys == if accepted then store.Keys + {key} else store.Keys
    ensures accepted ==> after[key] == text
    ensures forall k :: k in store && (k != key || !accepted) ==> after[k] == store[k]
  {
    if accepted then store[key := text] else store
  }

  /** No key of the cache is spelled with an underscore. */
  ghost predicate NormalizedKeys(store: map<string, string>)
  {
    forall key :: key in store ==> '_' !in key
  }

  // ---------------------------------------------------------------------------
  // Properties of reads and writes.
  // ---------------------------------------------------------------------------

  /** A read by name finds a value exactly when the cache holds a key without
      `_` that spells the same option, and the value is that key's. */
  lemma LookupByStoredKey(store: map<string, string>, name: string)
    ensures Lookup(store, name).Some? <==> exists key :: key in store && '_' !in key && SameOption(key, name)
    ensures forall key :: key in store && '_' !in key && SameOption(key, name) ==> Lookup(store, name) == Some(store[key])
  {
    NormSameKey(Norm(name), name);
    forall key | key in store && '_' !in key && SameOption(key, name)
      ensures key == Norm(name)
    {
      NormSameKey(key, name);
      NormFixedPoints(key);
    }
  }

  /** Both spellings of a name read the same cached value. */
  lemma LookupSpellings(store: map<string, string>, a: string, b: string)
    requires SameOption(a, b)
    ensures Lookup(store, a) == Lookup(store, b)
  {
    NormSameKey(a, b);
  }

  /** A name without an underscore is looked up literally, so a hyphenated
      name reads exactly the entry of that name. */
  lemma LookupHyphenated(store: map<string, string>, name: string)
    requires '_' !in name
    ensures Lookup(store, name) == if name in store then Some(store[name]) else None
  {
    NormFixedPoints(name);
  }

  /** After an accepted write, every spelling of the name reads the written text. */
  lemma AcceptedWriteVisible(store: map<string, string>, name: string, alias: string, text: string)
    requires SameOption(alias, name)
    ensures Lookup(Commit(store, Norm(name), text, true), alias) == Some(text)
  {
    NormSameKey(alias, name);
  }

  /** An accepted write changes no read of a name that spells another option. */
  lemma AcceptedWriteFrame(store: map<string, string>, name: string, other: string, text: string)
    requires !SameOption(other, name)
    ensures Lookup(Commit(store, Norm(name), text, true), other) == Lookup(store, other)
  {
  }

  /** A declined write changes no read at all. */
  lemma DeclinedWriteUnchanged(store: map<string, string>, key: string, text: string, name: string)
    ensures Lookup(Commit(store, key, text, false), name) == Lookup(store, name)
  {
  }

  /** Writes by name only ever add keys in the daemon's spelling. */
  lemma CommitKeepsNormalized(store: map<string, string>, name: string, text: string, accepted: bool)
    requires NormalizedKeys(store)
    ensures NormalizedKeys(Commit(store, Norm(name), text, accepted))
  {
  }

  // ---------------------------------------------------------------------------
  // Attribute assignment and the reserved-word option.
  // ---------------------------------------------------------------------------

  /** A read through an attribute: `continue_` is a property that reads the key
      `continue` as it stands; any other attribute is a read by name. */
  function AttributeRead(store: map<string, string>, attr: string): (value: Option<string>)
    ensures value == Lookup(store, AttributeKey(attr))
  {
    ContinueNames();
    NormIdempotent(attr);
    if attr == ContinueAttribute then
      LiteralLookup(store, "continue")
    else
      Lookup(store, attr)
  }

  /** The key an attribute assignment is meant to write: the property
      `continue_` stands for the key `continue`, any other attribute for its
      normalized name. */
  function AttributeKey(attr: string): (key: string)
    ensures '_' !in key
    ensures attr != ContinueAttribute ==> SameOption(attr, key)
  {
    if attr == ContinueAttribute then "continue" else Norm(attr)
  }

  /** As written, every assignment is caught by `__setattr__`, which normalizes
      the attribute name; for `continue_` that is the key `continue-`, so an
      accepted assignment to `continue_` is not seen by reading `continue_`. */
  lemma ContinueAssignmentAsWrittenIsLost(store: map<string, string>, text: string)
    ensures AttributeRead(Commit(store, Norm(ContinueAttribute), text, true), ContinueAttribute)
         == AttributeRead(store, ContinueAttribute)
  {
  }

  /** A concrete case: on an empty cache, after the daemon accepts the
      assignment `continue_ = "true"`, reading `continue_` still gives None. */
  lemma ContinueAssignmentAsWrittenExample()
    ensures AttributeRead(Commit(map[], Norm(ContinueAttribute), "true", true), ContinueAttribute) == None
  {
  }

  /** With the intended key, an accepted assignment to any attribute is read
      back through that same attribute. */
  lemma AssignmentReadBack(store: map<string, string>, attr: string, text: string)
    ensures AttributeRead(Commit(store, AttributeKey(attr), text, true), attr) == Some(text)
  {
  }

  /** The option `continue` read through its property agrees with the read
      by its canonical name. */
  lemma ContinueAttributeIsCanonicalRead(store: map<string, string>)
    ensures AttributeRead(store, ContinueAttribute) == Lookup(store, "continue")
  {
    ContinueNames();
  }

  // ---------------------------------------------------------------------------
  // The remote client and the option set.
  // ---------------------------------------------------------------------------

  /** The part of the JSON-RPC client an option set uses: `set_options`. The
      daemon's verdict on a call is the oracle `accepts`; `calls` records every
      call received. The client is shared, never owned by an option set. */
  class RemoteApi {
    const accepts: SetOptionsCall -> bool
    var calls: seq<SetOptionsCall>

    constructor (accepts: SetOptionsCall -> bool)
      ensures this.accepts == accepts && calls == []
    {
      this.accepts := accepts;
      calls := [];
    }

    method SetOptions(options: map<string, string>, targets: seq<Download>) returns (ok: bool)
      modifies this
      ensures calls == old(calls) + [SetOptionsCall(options, targets)]
      ensures ok == accepts(SetOptionsCall(options, targets))
    {
      calls := calls + [SetOptionsCall(options, targets)];
      ok := accepts(SetOptionsCall(options, targets));
    }
  }

  /** An option set: `struct` caches option values by key and `downloads` holds
      its owner, if any. */
  class Options {
    const api: RemoteApi
    var downloads: seq<Download>
    var struct: map<string, string>

    /** The owner list holds at most one download. */
    ghost predicate Valid()
      reads this
    {
      |downloads| <= 1
    }

    constructor (api: RemoteApi, struct: map<string, string>, download: Option<Download>)
      ensures Valid()
      ensures this.api == api && this.struct == struct
      ensures downloads == Targets(download) && GetDownload() == download
    {
      this.api := api;
      downloads := Targets(download);
      this.struct := struct;
    }

    /** Re-points the option set to a download, or to the global options. */
    method SetOwner(download: Option<Download>)
      modifies this
      ensures Valid()
      ensures downloads == Targets(download) && GetDownload() == download
      ensures struct == old(struct)
    {
      downloads := Targets(download);
    }

    /** The owner, or None for global options. */
    function GetDownload(): (download: Option<Download>)
      reads this
      requires Valid()
      ensures Targets(download) == downloads
    {
      if |downloads| > 0 then Some(downloads[0]) else None
    }

    /** A snapshot of the cache. A map is a value, so the snapshot and the
        live cache cannot affect each other afterwards. */
    function GetStruct(): (snapshot: map<string, string>)
      reads this
      ensures snapshot == struct
      ensures forall name :: Lookup(snapshot, name) == Read(name)
    {
      struct
    }

    /** A read by name (`__getattr__`): the cached value of the name's key, or
        None for an option that is not cached; no error either way. */
    function Read(name: string): (value: Option<string>)
      reads this
      ensures value.Some? <==> Norm(name) in struct
      ensures value.Some? ==> value.value == struct[Norm(name)]
    {
      Lookup(struct, name)
    }

    /** A write by name (`__setattr__`): the value is converted to a string and
        sent, under the name's key, to the daemon for this set's targets; the
        cache takes the new value only if the daemon accepts it. */
    method Write(name: string, value: Value) returns (ok: bool)
      requires Valid()
      modifies this, api
      ensures Valid()
      ensures api.calls == old(api.calls) + [SetOptionsCall(map[Norm(name) := ToString(value)], downloads)]
      ensures ok == api.accepts(SetOptionsCall(map[Norm(name) := ToString(value)], downloads))
      ensures struct == Commit(old(struct), Norm(name), ToString(value), ok)
      ensures downloads == old(downloads)
    {
      var text := ToString(value);
      var key := Norm(name);
      ok := api.SetOptions(map[key := text], downloads);
      if ok {
        struct := struct[key := text];
      }
    }

    /** The getter of the property `continue_`: the cached value of `continue`. */
    function ContinueGet(): (value: Option<string>)
      reads this
      ensures value == Read("continue")
    {
      ContinueNames();
      LiteralLookup(struct, "continue")
    }

    /** The setter of the property `continue_`: a write of the key `continue`,
        sent and cached by the same rule as any write. */
    method ContinueSet(value: Value) returns (ok: bool)
      requires Valid()
      modifies this, api
      ensures Valid()
      ensures api.calls == old(api.calls) + [SetOptionsCall(map["continue" := ToString(value)], downloads)]
      ensures ok == api.accepts(SetOptionsCall(map["continue" := ToString(value)], downloads))
      ensures struct == Commit(old(struct), "continue", ToString(value), ok)
      ensures downloads == old(downloads)
    {
      var text := ToString(value);
      ok := api.SetOptions(map["continue" := text], downloads);
      if ok {
        struct := struct["continue" := text];
      }
    }

    /** Attribute assignment as the property `continue_` intends it: an
        assignment to `continue_` runs the property's setter, any other one is
        a write by name. */
    method Assign(attr: string, value: Value) returns (ok: bool)
      requires Valid()
      modifies this, api
      ensures Valid()
      ensures api.calls == old(api.calls) + [SetOptionsCall(map[AttributeKey(attr) := ToString(value)], downloads)]
      ensures ok == api.accepts(SetOptionsCall(map[AttributeKey(attr) := ToString(value)], downloads))
      ensures struct == Commit(old(struct), AttributeKey(attr), ToString(value), ok)
      ensures ok ==> AttributeRead(struct, attr) == Some(ToString(value))
      ensures !ok ==> AttributeRead(struct, attr) == AttributeRead(old(struct), attr)
      ensures downloads == old(downloads)
    {
      if attr == ContinueAttribute {
        ok := ContinueSet(value);
      } else {
        ok := Write(attr, value);
      }
      if ok {
        AssignmentReadBack(old(struct), attr, ToString(value));
      }
    }
  }

  /** The key and the strings the scenario below sends. */
  lemma MaxDownloadLimitFacts()
    ensures Norm("max_download_limit") == "max-download-limit"
    ensures ToString(Int(100)) == "100" && ToString(Int(200)) == "200"
  {
    assert Decimal(100) == "100";
    assert Decimal(200) == "200";
  }

  /** A global option set over `max-download-limit = 0`, read with the
      underscore spelling, written with an integer the daemon accepts and then
      with one it declines. */
  method MaxDownloadLimitScenario()
  {
    var api := new RemoteApi((call: SetOptionsCall) =>
      "max-download-limit" !in call.options || call.options["max-download-limit"] != "200");
    var options := new Options(api, map["max-download-limit" := "0"], None);
    MaxDownloadLimitFacts();
    assert options.Read("max_download_limit") == Some("0");

    var ok := options.Write("max_download_limit", Int(100));
    assert ok;
    assert api.calls == [SetOptionsCall(map["max-download-limit" := "100"], [])];
    LookupHyphenated(options.struct, "max-download-limit");
    assert options.Read("max-download-limit") == Some("100");

    ok := options.Write("max_download_limit", Int(200));
    assert !ok;
    LookupHyphenated(options.struct, "max-download-limit");
    assert options.Read("max-download-limit") == Some("100");
    assert options.GetDownload() == None;
  }
}
