# pyscape request construction, in Dafny

A model of the request-building core of the pyscape client for the Mozscape
link-analysis API, and of its command-line preset resolver.

* `Api.Pyscape` is the client object: it holds the API base URL, the access id
  and the secret key. Its methods update a caller-owned parameter dictionary
  (`Api.Params`) in place, just as the Python methods mutate the `params` dict:
  * `AddSignature` forces `AccessID`, `Expires` (now + 300) and `Signature`
    into the dictionary. The signature is base64 of HMAC-SHA1, keyed with the
    secret, over `access_id\nexpires`.
  * `Get` signs, joins a `Filters` value with `+`, and builds
    `base + endpoint + "/" + url`.
  * `Post` signs and builds `base + endpoint + "/"`, with the URL list as the body.
  * `AddSmartFields` fills in default column masks. It does so only when the
    caller gave none of `Cols`, `SourceCols`, `TargetCols` and `LinkCols`.
    Each mask is the bitwise OR of the field flags. It also adds a default
    `Sort` when the caller gave none.
* A Python exception that stops an operation part-way is modelled as an
  `Outcome`: the dictionary as far as it was updated, plus the exception raised.
  For example, `_add_signature` has already written `AccessID` and `Expires`
  when a non-ASCII credential makes the encode raise. Likewise the smart-fields
  loop has already written the earlier groups when a later field name is
  unknown.
* `Bitwise` defines Python's `|` on non-negative integers and proves it is the
  bitwise OR. `Text` defines `'%i' % n`, `str.encode('ascii')` and
  `'+'.join`, together with the split that undoes the join.
* `Cli.GetPreset` builds the preset key from the command and the scope flags
  by appending to a local string, as `get_preset` does. It is proved equal to
  `Cli.PresetKey`, which resolves the flags into a `Choice` and spells that
  choice with the abbreviation table. `Cli.ParseKey` reads a key back.

Three behaviours of the code are kept as written:
* `get_preset` raises for every command other than `links` and `anchor`, so
  those commands get an error rather than "no preset". This includes the
  parser's own `anchor-text` and `bulk-url-metrics`.
* An absent granularity flag contributes an empty suffix. It is not a
  `MissingGranularity` error.
* `get` signs the parameters before it joins `Filters`.

## Model

| member | source | states |
|---|---|---|
| `Api.Pyscape.constructor` | pyscape/api.py:17-21 | the base URL is `http://lsapi.seomoz.com/linkscape/`; the credentials are the ones given |
| `Api.Signed` | pyscape/api.py:33-40 | `AccessID` is the access id and `Expires` is now + 300, both always written. With ASCII credentials, `Signature` is b64(HMAC-SHA1(secret, access_id "\n" expires)). Otherwise UnicodeEncodeError is raised and no signature is written. Every other key is unchanged |
| `Api.Pyscape.AddSignature` | pyscape/api.py:26-40 | the caller's dictionary becomes the signed dictionary, and the same dictionary object is returned; UnicodeEncodeError on non-ASCII credentials |
| `Api.ToSignInjective` | pyscape/api.py:33-34 | for any access id, the signed string determines both the access id and the expiry (the expiry is all digits, so the last newline ends the id) |
| `Api.SigningVector` | pyscape/api.py:33-38 | at now = 1000 with secret "k" and id "id": `Expires` is 1300 and the HMAC is taken over the bytes of "id\n1300" with key "k" |
| `Api.Pyscape.Get` | pyscape/api.py:42-50 | the dictionary is signed, then `Filters` is joined (errors propagate); the request is a GET of `base + endpoint + "/" + url` carrying the final dictionary |
| `Api.GetParamsFilters` | pyscape/api.py:43-47 | a list of filter names becomes the single `+`-joined string; only the signing keys and `Filters` change |
| `Api.GetParamsNoFilters` | pyscape/api.py:43-47 | without `Filters`, `get` only adds the three signing keys and never adds `Filters` |
| `Api.FiltersVector` | pyscape/api.py:46-47 | `['links', 'external']` becomes `links+external` |
| `Api.JoinFiltersSplits` | pyscape/api.py:47 | splitting the joined filters on `+` gives back a non-empty list of `+`-free names |
| `Api.CallUrlInjective` | pyscape/api.py:48 | for slash-free endpoints, the call URL determines the endpoint and the target |
| `Api.Pyscape.Post` | pyscape/api.py:52-56 | the dictionary is signed; the request is a POST of `base + endpoint + "/"` with the URL list as its body; `Filters` is left as it was |
| `Api.Pyscape.GetBitflag` | pyscape/api.py:58-59 | the field's flag when the field is registered, KeyError otherwise |
| `Api.LookupPreset` | pyscape/api.py:75 | `DEFAULTS[endpoint][scope]` when both keys exist and the scope is hashable. KeyError for an unknown endpoint. Under a known endpoint, TypeError for a list-valued scope, else KeyError for an unknown scope |
| `Api.FieldMaskKnown` | pyscape/api.py:76-80 | a group's mask exists exactly when every listed field is registered; otherwise KeyError |
| `Api.FieldMaskBits` | pyscape/api.py:77-79 | bit k of a group's mask is set exactly when it is set in the flag of some listed field |
| `Api.FieldMaskOrderFree` | pyscape/api.py:77-79 | the mask depends only on which fields are listed, not on their order or repetition; an empty list gives 0 |
| `Api.ApplyGroupsWrites` | pyscape/api.py:76-80 | with distinct group names and known fields, every group key holds its mask, and keys that are not group names are unchanged |
| `Api.ApplyGroupsUnknown` | pyscape/api.py:75-80 | an unknown field in any group raises KeyError |
| `Api.SmartFieldsKeepsColumns` | pyscape/api.py:72-83 | if any column key was supplied, no key other than `Sort` is added or changed. An existing `Sort` is kept, and the default `Sort` is added where none was given. A failed lookup raises its error and leaves the dictionary unchanged |
| `Api.SmartFieldsDefaults` | pyscape/api.py:67-83 | if no column key was supplied, each default group holds the OR of its fields' flags and other keys stay. The default `Sort` is added only where none was given. `Scope` is never added |
| `Api.SmartFieldsMissingPreset` | pyscape/api.py:67-83 | a failed (endpoint, scope) lookup leaves the dictionary unchanged, whether or not columns were supplied. It raises TypeError for a list-valued `Scope` under a known endpoint, KeyError otherwise |
| `Api.SmartFieldsListScope` | pyscape/api.py:67-83 | named instance of `Api.SmartFieldsMissingPreset`: a list-valued `Scope` under a known endpoint raises TypeError (unhashable key), with or without columns, and nothing is written |
| `Api.SmartFieldsUnknownField` | pyscape/api.py:72-80 | with no column keys supplied, an unknown default field raises KeyError |
| `Api.Pyscape.AddSmartFields` | pyscape/api.py:61-85 | the nested loops leave the caller's dictionary equal to `Api.SmartFields(...).entries`, error path included. The error raised is `Api.SmartFields(...).raised`, KeyError or TypeError. On success the same dictionary object is returned |
| `Bitwise.OrBit` | pyscape/api.py:79 | each bit of `Or(a, b)` (Python `a OR b`) is the disjunction of the operands' bits |
| `Bitwise.OrLaws` | pyscape/api.py:79 | OR is commutative, associative and idempotent, and 0 is its unit |
| `Text.Decimal` | pyscape/api.py:34 | `%i` of a non-negative integer: digits only, non-empty, and a leading zero only for 0; its value is pinned by `Text.ParseDecimalOfDecimal` |
| `Text.ParseDecimalOfDecimal` | pyscape/api.py:34 | reading the decimal spelling back gives the number: `Text.Decimal(n)` spells exactly `n` |
| `Text.DecimalInjective` | pyscape/api.py:34 | different expiries have different decimal spellings |
| `Text.AsciiEncode` | pyscape/api.py:38 | encoding succeeds exactly when every character is below 128, and then gives one byte per character with the same code |
| `Api.ToSign` | pyscape/api.py:34 | computes the signed string: the access id, a newline, then the expiry in decimal |
| `Api.GetParams` | pyscape/api.py:43-47 | computes the dictionary `get` sends: `Api.Signed` first; if that succeeded and `Filters` is present, `Filters` is replaced by its join, or the join's TypeError is raised over the signed dictionary |
| `Api.JoinFilters` | pyscape/api.py:47 | computes `'+'.join(v)` for each value kind. A list joins when all its items are strings and raises TypeError otherwise. A string joins over its characters. Bytes give "" when empty and TypeError otherwise. An integer raises TypeError |
| `Text.PlusJoin` | pyscape/api.py:47 | computes `'+'.join` of a list of strings: "" for none, the string itself for one, else the strings separated by single `+` |
| `Api.CallUrl` | pyscape/api.py:48 | computes `base + endpoint + "/" + target`; `post` uses it with an empty target (line 54) |
| `Api.FieldMask` | pyscape/api.py:77-79 | computes a group's mask: OR of the flags left to right from 0, or KeyError at an unregistered field |
| `Bitwise.Or` | pyscape/api.py:79 | computes Python's `a OR b` on non-negative integers digit by digit in base 2 (its meaning is `Bitwise.OrBit`) |
| `Api.ApplyGroups` | pyscape/api.py:76-80 | computes the dictionary after the group loop: each group in order is set to its mask, stopping with KeyError at the first group with an unregistered field, with earlier groups already written |
| `Api.AddDefaultSort` | pyscape/api.py:82-83 | computes the dictionary with the default `Sort` added when the defaults have one and the dictionary has none |
| `Api.SmartFields` | pyscape/api.py:67-83 | computes the dictionary after `_add_smart_fields` and the exception it raises, if any. The scope is the caller's `Scope` or None. The groups are applied only when no column key is present. The (endpoint, scope) lookup is repeated for `Sort` |
| `Cli.Resolve` | bin/cli.py:69-97 | computes the choice the flags select, with the if/elif priorities: one page over many pages, phrase over term, domain over subdomain over page; None for commands other than `links` and `anchor` |
| `Cli.KeyOf` | bin/cli.py:70-97 | computes the abbreviation table: `l_` + `domain_to`/`page_to`/"" + `domain`/`subdomain`/`page`/"", and `a_` + `pt`/`tt`/"" + `d`/`s`/`p`/"" |
| `Cli.PresetKey` | bin/cli.py:60-99 | computes `KeyOf` of the resolved choice, or the UnboundLocalError (`UnboundPreset`) raised when no branch assigned the key |
| `Cli.GetPreset` | bin/cli.py:57-99 | the key built by successive appends equals `PresetKey`. It succeeds exactly for `links` and `anchor` |
| `Cli.ParseKeyOf` | bin/cli.py:69-97 | reading a key back gives the family, scope or match kind, and granularity that produced it |
| `Cli.PresetKeyInjective` | bin/cli.py:69-97 | two argument records that get the same key have the same command and resolve to the same choice: keys never collide across or within families |
| `Cli.PresetKeyFamilies` | bin/cli.py:60-99 | `links` keys start with `l_`, `anchor` keys with `a_`, and every other command raises |
| `Cli.PresetKeyIgnoresIo` | bin/cli.py:57-99 | the key depends only on the command and the scope and granularity flags, not on `src`, `dest` or the output format |
| `Cli.PresetKeyVectors` | bin/cli.py:69-97 | `links` + many pages + domain gives `l_page_todomain`; `anchor` + phrase + page gives `a_ptp`; `anchor-text` and `bulk-url-metrics` raise |

## Left out

- HTTP transport (`requests.get`, `requests.post`): the model stops at the `Request` value that would be handed to the library.
- `json.dumps` of the POST body: the body is kept as the list of URLs, not as its JSON text.
- HMAC-SHA1 and base64 are function-valued parameters (`Api.Crypto`); their internals are not modelled.
- `time.time()`: the clock reading is a parameter `now: nat` of whole epoch seconds. `int(time.time() + 300)` is then `now + 300`; float rounding and clocks before the epoch are not modelled.
- The contents of `FIELDS`, `DEFAULTS` and `EndpointsMixin`: pyscape/fields.py, pyscape/defaults.py and pyscape/endpoints.py are not part of this model. The tables are the `Api.Tables` parameter. `FIELDS` is reduced to each field's `'flag'` entry, taken to be a non-negative integer. A default configuration always has a `'Fields'` entry. No single-bit or disjointness property of the flags is assumed.
- Api.SmartFieldsDefaults: stated for group lists with distinct names (as dictionary keys always are), none of them `Sort`; the general case is covered only by `Api.SmartFields` itself.
- The shared mutable default arguments (`params = {}`, `urls = []`): every call takes an explicit caller-owned `Params` object.
- Parameter values other than strings, integers, bytes and lists (dicts, floats, `None`, booleans) are not modelled. They matter for the `'+'.join` type errors and for whether a `Scope` value can be a dictionary key; of the modelled kinds, only a list is unhashable.
- `build_parser` (argparse configuration) and `__repr__`: plumbing and formatting. The parser writes the command to `endpoint`, while `get_preset` reads `command`, and the parser has no granularity flags. `Cli.Args` is the record that `get_preset` reads.
- tests/test_auth.py: live-network status checks, nothing to model.
