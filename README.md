# Zone service-info model

A Dafny model of a small Go HTTP service that serves fixed DNS zone metadata.
The service keeps a table of four zones: `AN`, `ATLAS`, `GES_WAF` and `GES_PROXY`.
Each zone has a list of IP addresses, a CNAME, a root domain and a zone id.
The service has three handlers:

- list-all: answers with the AN and ATLAS records and a GES wrapper that holds both GES sub-zones;
- get-by-name: upper-cases the requested name and answers for the one group it names (`GES`, `AN` or `ATLAS`);
- array echo: joins the repeated `status` query values with commas.

Everything in `main.go` is pure once the HTTP layer is removed, so the model is written as
datatypes, functions and lemmas.

- `wrappers.dfy` (module `Wrappers`): `Option`, which stands for Go's nullable pointers in the
  response envelopes.
- `go_strings.dfy` (module `GoStrings`): models of the three library calls the service makes.
  `strings.Split` and `strings.Join` take a one-character separator, since the service only uses `","`.
  `strings.ToUpper` works on ASCII letters only.
  The module also proves the split/join round trips these calls satisfy.
- `service_info.dfy` (module `ServiceInfo`): the records and envelopes of `main.go`, the zone table,
  the lookup, the envelope builders and the handlers.
  Each handler is a function from its input (the zone name, or the list of `status` values) to the
  value it would render. A handler that renders nothing returns `None`.

An unknown zone name does not get an empty JSON object: it gets no body at all.
The `switch` at main.go:71-87 has no default branch, so no `render.Render` call happens and nothing
is written. `GetZoneServiceInfo` returns `None` for such a name, not an empty envelope.

## Model

| member | source | states |
|---|---|---|
| `GoStrings.Split` | main.go:138 | splitting always yields at least one piece |
| `GoStrings.SplitPieces` | main.go:149 | there is one more piece than there are separators, so `""` splits into one empty piece, and no piece holds the separator |
| `GoStrings.SplitWithoutSeparator` | main.go:138 | a string without the separator splits into just itself |
| `GoStrings.SplitConcat` | main.go:138 | splitting `a + "," + b` gives the pieces of `a` followed by the pieces of `b` |
| `GoStrings.SplitJoin` | main.go:138-144 | splitting a joined non-empty list whose elements hold no separator gives the list back |
| `GoStrings.Join` | main.go:93 | joining no elements gives `""`; the joined length is the sum of the element lengths plus one separator between each pair |
| `GoStrings.JoinSplit` | main.go:93 | joining the pieces of a split restores the original string |
| `GoStrings.JoinSplitsInto` | main.go:93 | splitting a joined list gives the pieces of all its elements in order |
| `GoStrings.ToUpper` | main.go:71 | upper-casing keeps the length and maps each character through ASCII upper-casing |
| `GoStrings.ToUpperIdempotent` | main.go:71 | upper-casing an upper-cased name changes nothing |
| `ServiceInfo.CreateStringArray` | main.go:159-166 | the result is empty exactly when the input is empty or starts with `""`; otherwise it is the input unchanged; it never starts with `""` |
| `ServiceInfo.CreateStringArrayIdempotent` | main.go:159-166 | normalising twice is normalising once |
| `ServiceInfo.IPListRoundTrip` | main.go:159-166 | the normaliser undoes the comma-joining of a list of non-empty, comma-free IPs, including the empty list, whose split is `[""]` |
| `ServiceInfo.ParseIPs` | main.go:138 | a parsed IP list never starts with an empty entry |
| `ServiceInfo.ParseJoinedIPs` | main.go:138-154 | parsing the comma-joined text of a clean IP list gives the list |
| `ServiceInfo.AnIPList` | main.go:138 | the AN text parses to the two IPs `1.1.1.1` and `2.2.2.2` |
| `ServiceInfo.AtlasIPList` | main.go:144 | the ATLAS text parses to the two IPs `3.3.3.3` and `4.4.4.4` |
| `ServiceInfo.CreateZoneInfo` | main.go:132-157 | the table has exactly the keys `AN`, `ATLAS`, `GES_WAF`, `GES_PROXY` |
| `ServiceInfo.ZoneTableContents` | main.go:132-157 | the value of every entry: AN and ATLAS each have two IPs; GES_WAF and GES_PROXY have an empty IP list and an empty CNAME |
| `ServiceInfo.GetZoneInfo` | main.go:123-130 | a present key gives a copy equal to the stored record; a missing key gives empty IPs and three empty strings, never a failure |
| `ServiceInfo.LookupInZoneTable` | main.go:123-157 | looking up each of the four keys of the service's table gives its exact record |
| `ServiceInfo.MissOutsideKeys` | main.go:123-130 | in a table with exactly the four keys, any other name gives the zero record |
| `ServiceInfo.LookupOutsideZoneTable` | main.go:123-157 | any name other than the four keys gives the zero record from the service's table |
| `ServiceInfo.GetANServiceInfo` | main.go:108-110 | the AN record of the table, or the zero record when it is absent |
| `ServiceInfo.GetAtlasServiceInfo` | main.go:112-114 | the ATLAS record of the table, or the zero record when it is absent |
| `ServiceInfo.GetGESServiceInfo` | main.go:116-121 | both wrapper slots are filled; they hold the GES_PROXY and GES_WAF lookups |
| `ServiceInfo.GetZoneServiceInfo` | main.go:66-88 | names upper-casing to `GES`, `AN` or `ATLAS` fill exactly that one slot with the table's record(s); any other name renders nothing |
| `ServiceInfo.GetAllServiceInfo` | main.go:97-106 | all three slots are filled: AN, ATLAS, and GES holding both sub-zones |
| `ServiceInfo.GetArrayTest` | main.go:90-95 | no values give `""`; one value gives that value; in general, splitting the result gives the pieces of all the values |
| `ServiceInfo.GetArrayTestRoundTrip` | main.go:90-95 | for one or more comma-free values, splitting the joined value gives exactly those values |
| `ServiceInfo.DispatchCaseInsensitive` | main.go:71 | two names equal up to ASCII case get the same answer |
| `ServiceInfo.DispatchOnUpperCase` | main.go:71 | upper-casing a name before the request does not change the answer |
| `ServiceInfo.DispatchLowerCase` | main.go:71-81 | `an` and `AN` get the same answer, the AN slot alone |
| `ServiceInfo.DispatchUnknown` | main.go:71-87 | `unknown`, the empty name and the sub-zone key `ges_waf` render nothing |
| `ServiceInfo.SingleGroupAgreesWithAll` | main.go:66-121 | every slot a single-group answer fills holds what the list-all answer holds in that slot |

## Left out

- `main` (main.go:44-64): router construction, the chi middleware and `http.ListenAndServe` are network plumbing.
- `render.Render` and JSON encoding, including `omitempty` elision of empty fields (main.go:14-28, 76, 94, 105): responses are modelled as datatypes, not bytes.
- The `Render` methods (main.go:36-42) do nothing and are not modelled.
- `chi.URLParam` and `request.URL.Query()` (main.go:69, 91): the zone name and the `status` values are plain inputs.
- The type assertion `config.([]string)` (main.go:160): the normaliser takes a `seq<string>` directly, so the panic on a value of another type cannot arise.
- `GoStrings.ToUpper`: does not model full Unicode upper-casing, only ASCII letters. Go also maps some non-ASCII letters to ASCII ones, for example `ı` to `I` and `ſ` to `S`. So a name such as `atlaſ` is dispatched to ATLAS by the service but not by the model.
- `GoStrings.Split`, `GoStrings.Join`: the separator is a single character. The service only ever passes `","`.
- Nil versus empty slices: a missing key gives a nil IP list, while the normaliser gives an empty non-nil one. Both are `[]` here; `omitempty` drops both from the JSON output, so the difference never shows.
- Pointers and aliasing: the Go code returns freshly allocated records and wrappers. The model returns values, and a non-nil pointer is `Some`.
- The table is rebuilt on every request in the source. A function with no arguments gives the same value every time, so this is not modelled separately. The same holds for repeated identical requests always getting identical answers.
