# aria2p option sets, modelled in Dafny

This project models the `Options` class of the aria2p client library. An
`Options` object is a local cache of the option values of the aria2 download
daemon. The options are either the daemon's global options or those of one
download.

- Reads are answered from the cache. The caller's name is first translated to
  the daemon's spelling: every `_` becomes `-`.
- Writes go to the daemon's `set_options` first. The cache takes the new value
  only when the daemon reports success. A declined write changes nothing.

Files:

- `wrappers.dfy` (`Wrappers`): the `Option` datatype.
- `option_names.dfy` (`OptionNames`): name normalization `Norm`, and when two
  spellings name the same option (`SameOption`).
- `option_values.dfy` (`OptionValues`): the conversion of an assigned value to
  the string that is sent and cached. It models the decimal form Python's `str`
  gives for integers within the interpreter's digit limit, and `str` of
  booleans, with a decimal reader as an independent partner.
- `options.dfy` (`Aria2Options`):
  - the cache as values (`Lookup`, `Commit`, `Targets`) and lemmas about
    reads and writes;
  - the remote client `RemoteApi`: its `accepts` oracle stands for the
    daemon's answer, and `calls` records every call;
  - the class `Options`;
  - a client method that builds a global option set over `max-download-limit = 0` and checks a read, an accepted write and a declined write from the contracts alone.

The remote `set_options` call is a parameter of the model. `RemoteApi` is built
from an oracle function that gives the daemon's verdict on each call. Every
call made is recorded in `RemoteApi.calls`, so a method's contract can say
exactly what was sent: the single-entry map and the targets list.

Three points on how the model relates to the code:

- `__setattr__` and the `continue_` setter return nothing in the source. The
  model's `Write`, `ContinueSet` and `Assign` return the daemon's answer:
  `api.accepts` of the call recorded in `RemoteApi.calls`.
- Keys are normalized only on writes. The snapshot given to the constructor is
  cached as it is, so `CommitKeepsNormalized` requires a normalized cache.
- Assigning through the alternate name `continue_` does NOT reach the key
  `continue` (see Findings). Only the property's getter and setter bodies use
  `continue`.

## Model

| member | source | states |
|---|---|---|
| `OptionNames.Norm` | src/aria2p/options.py:46 | the key has the name's length, contains no `_`, has `-` wherever the name had `_`, and keeps every other character |
| `OptionNames.NormFixedPoints` | src/aria2p/options.py:51 | normalization leaves a name unchanged exactly when it has no `_` |
| `OptionNames.NormIdempotent` | src/aria2p/options.py:51 | normalizing a key again gives the same key |
| `OptionNames.NormSameKey` | src/aria2p/options.py:45-46 | two names give the same key if and only if they agree except where both hold a separator (`_` or `-`) |
| `OptionNames.ContinueNames` | src/aria2p/options.py:55-66 | `continue` is already a key; the attribute name `continue_` normalizes to `continue-`, which is not `continue` |
| `OptionValues.NatDigitsRoundTrip` | src/aria2p/options.py:49-50 | the decimal digits written for a natural number read back as that number |
| `OptionValues.DecimalRoundTrip` | src/aria2p/options.py:49-50 | the string form of an integer (optional minus sign, digits) parses back to that integer |
| `OptionValues.DecimalCanonical` | src/aria2p/options.py:49-50 | the string form of an integer is canonical: `0`, or digits with no leading zero, with a leading `-` for a negative number |
| `OptionValues.ToString` | src/aria2p/options.py:49-50 | a string is passed through unchanged; an integer becomes a canonical decimal string (no leading zero, no `-0`) that reads back as the integer; a boolean becomes `True`/`False`; any other object becomes the text `str` gives for it |
| `OptionValues.IntToStringInjective` | src/aria2p/options.py:49-50 | two integers give the same string if and only if they are equal |
| `Aria2Options.Targets` | src/aria2p/options.py:31 | the targets list built for an owner has at most one element |
| `Aria2Options.LookupByStoredKey` | src/aria2p/options.py:46 | a read by name finds a value exactly when the cache has a key without `_` that spells the same option, and then it is that key's value |
| `Aria2Options.Commit` | src/aria2p/options.py:52-53 | an accepted write adds or replaces exactly the written key with the written text; every other entry, and every entry after a declined write, is unchanged |
| `Aria2Options.LookupSpellings` | src/aria2p/options.py:45-46 | any two spellings of a name read the same cached value |
| `Aria2Options.LookupHyphenated` | src/aria2p/options.py:45-46 | a name without `_` reads exactly the entry of that name, and None when there is none |
| `Aria2Options.AcceptedWriteVisible` | src/aria2p/options.py:51-53 | after an accepted write, every spelling of the name reads the written string |
| `Aria2Options.AcceptedWriteFrame` | src/aria2p/options.py:51-53 | an accepted write leaves the read of every name that spells another option unchanged |
| `Aria2Options.DeclinedWriteUnchanged` | src/aria2p/options.py:52-53 | a declined write leaves every read unchanged |
| `Aria2Options.CommitKeepsNormalized` | src/aria2p/options.py:51-53 | a cache whose keys have no `_` keeps that property after any write by name, accepted or declined |
| `Aria2Options.AttributeRead` | src/aria2p/options.py:45-59 | reading an attribute (the property `continue_`, or any other name through `__getattr__`) is a read of the attribute's intended key |
| `Aria2Options.AttributeKey` | src/aria2p/options.py:56-66 | the intended key of an assignment never contains `_`, and for every attribute other than `continue_` it is a spelling of the attribute's own name |
| `Aria2Options.ContinueAssignmentAsWrittenIsLost` | src/aria2p/options.py:48-53 | as written, an accepted assignment to `continue_` does not change what reading `continue_` returns |
| `Aria2Options.ContinueAssignmentAsWrittenExample` | src/aria2p/options.py:48-59 | on an empty cache, reading `continue_` after an accepted assignment `continue_ = "true"` still gives None |
| `Aria2Options.AssignmentReadBack` | src/aria2p/options.py:56-66 | with the intended key, an accepted assignment to any attribute is read back through the same attribute |
| `Aria2Options.ContinueAttributeIsCanonicalRead` | src/aria2p/options.py:56-59 | reading the property `continue_` equals reading the name `continue` |
| `Aria2Options.RemoteApi.SetOptions` | src/aria2p/options.py:52 | the remote call records its arguments and returns the daemon's verdict on them |
| `Aria2Options.Options.constructor` | src/aria2p/options.py:19-32 | the cache is the given snapshot; the owner list is `[d]` for a download `d` and `[]` for None; the owner read back is the one given |
| `Aria2Options.Options.SetOwner` | src/aria2p/options.py:34-35 | the owner list becomes `[d]` or `[]`, `GetDownload` then returns the owner given, and the cache is unchanged |
| `Aria2Options.Options.GetDownload` | src/aria2p/options.py:37-40 | the owner returned is the one whose targets list is the current list: None exactly when the list is empty |
| `Aria2Options.Options.GetStruct` | src/aria2p/options.py:42-43 | the snapshot equals the cache, and so it answers every read by name as the live object does |
| `Aria2Options.Options.Read` | src/aria2p/options.py:45-46 | a read gives a value exactly when the normalized name is cached, and then the cached value; otherwise None, no error |
| `Aria2Options.Options.Write` | src/aria2p/options.py:48-53 | exactly one remote call, with `{Norm(name): str(value)}` and the current owner list; the cache takes that entry if and only if the call succeeds; the owner is unchanged |
| `Aria2Options.Options.ContinueGet` | src/aria2p/options.py:56-59 | the property getter gives what a read of the name `continue` gives |
| `Aria2Options.Options.ContinueSet` | src/aria2p/options.py:61-66 | exactly one remote call, with `{"continue": str(value)}` and the current owner list; the cache takes that entry if and only if the call succeeds |
| `Aria2Options.Options.Assign` | src/aria2p/options.py:48-66 | corrected assignment: it sends and caches under the intended key, and if the daemon accepts, reading the same attribute gives the new value; if it declines, that read is unchanged |

## Findings

| source | as written | input that shows it | evidently intended | confidence | as-written member | corrected member |
|---|---|---|---|---|---|---|
| src/aria2p/options.py:48-66 | `__setattr__` catches every assignment, including `options.continue_ = v`. It normalizes the name to `continue-` and sends and caches that key, so the `continue_` setter never runs. | On a cache without `continue`, the daemon accepts `options.continue_ = "true"`. Reading `options.continue_` afterwards gives None. | An assignment to `continue_` runs the property setter and writes the option `continue`. | not executed | `Aria2Options.ContinueAssignmentAsWrittenIsLost` | `Aria2Options.Options.Assign` |

## Left out

- The JSON-RPC transport behind `api.set_options`. It is a foreign call, modelled by the oracle `RemoteApi.accepts` and the record `RemoteApi.calls`. Any exception the transport raises is not modelled: in the source it passes through unchanged and the cache is not touched.
- Python's `str` of arbitrary objects. `Value.Other` carries the text `str` would give; only strings, integers and booleans are converted by the model itself.
- The mechanics of Python attribute dispatch. `__getattr__` runs only when normal lookup fails, so the names of real attributes (`api`, `set_owner`, and so on) are never read from the cache. Assigning to such a name is also caught by `__setattr__`. The `super().__setattr__` calls in `__init__` and `set_owner` bypass it. The model has explicit `Read`, `Write`, `ContinueGet`, `ContinueSet` and `Assign` methods instead.
- `deepcopy` in `get_struct`, and the sharing of the dictionary passed to `__init__`. Dafny maps are values, so a snapshot and the cache cannot affect each other, and the caller's dictionary is never aliased by the cache.
- The truthiness test on the download (`[download] if download else []`). The owner is an `Option<Download>`, so a download object that Python treats as false is not modelled.
- Concurrency: the source has none.
- OptionValues.ToString: does not model the interpreter's limit on int-to-string conversion (4300 digits by default in recent CPython releases). Past that limit `str(value)` raises `ValueError` in `__setattr__` and in the `continue_` setter, before `set_options` is called. In that case the source makes no remote call and leaves the cache unchanged, while `Write`, `ContinueSet` and `Assign` in the model still send the call, because the limit is an interpreter setting rather than part of this code.
