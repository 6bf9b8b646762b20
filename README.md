# gke-terraform-generator: cluster spec, defaulting, validation and the vars flag

This Dafny project models the core of gke-terraform-generator. That tool reads a
YAML description of a GKE cluster (`GkeTF`), fills in defaults, validates the
result and renders Terraform from it. Four pieces are modelled:

- **Schema** (`pkg/api/api.go`, module `Api`). Every record type of the cluster
  spec is a datatype, and every Go pointer field is an `Option`. The document as
  a whole is the class `GkeTF`, whose `spec` field the defaulting pass updates
  in place.
- **Validation** (`pkg/api/validate.go`, module `Validate`). The readable
  `validate` tags become two definitions. `Valid` is one conjunction of every
  constraint. `Violations` lists the field errors in the validator's order,
  one per failing field, under the first tag the field fails. The two are
  proved to agree: the list is empty exactly when `Valid` holds.
  `ValidateYamlInput` returns `None` or the whole list.
- **Defaulting** (`pkg/api/default_values.go`, module `Defaults`).
  `SetApiDefaultValues` works in four steps. It builds the default cluster and
  node-pool specs from the `default` tags, allocates Addons and merges the
  cluster defaults, merges the pool defaults into each pool in a loop, and
  finally writes back the listed booleans from a second parse of the same file
  (`original`). The method is proved equal to the function `Defaulted`. The
  lemmas beside it state which fields take defaults, which are kept, which are
  restored, and that the pass is idempotent.
- **The `--vars` flag** (`generator/flagparser.go`, module `FlagParser`). The
  class `Vars` has `Set`, a loop over the comma-separated `key=value` pieces
  that is proved against the function `ApplyPieces`. `TFVars` and `String`
  render the fields, and lemmas give each rendering back as its lines or
  pieces.

Supporting modules:

- `Strings`: Go's `strings.Split` and `strings.Join`, with round-trip lemmas.
- `Syntax`: approximations of the `cidrv4`, `ipv4` and `email` checks.
- `Scenarios`: the package's validation tests, restated as lemmas about
  defaulting followed by validation.

Behaviour of the code worth knowing:

- NodePools' `required` only demands a non-nil list, so an empty pool list
  validates.
- The taint `effect` enumeration is never enforced, because its tag is
  malformed (a missing closing quote).
- `masterIPV4CIDRBlock` carries `cidrv4` without `omitempty`, so an empty
  value fails. The block is effectively required, not optional.
- A non-pointer field explicitly set to its zero value (`minCount: 0`,
  `imageType: ""`) cannot be told from an absent one and takes the default.
  Only the restored booleans keep an explicit `false` whose default is `true`.
- `use-istio=` in the vars flag writes `Private`. `UseIstio` is never set.
  Unknown keys are reported as `Unknownn field:<key>`, spelt as in the code.
- `metadata` is tagged `omitempty,dive` with no tag after the dive, so the
  validator panics on a non-empty metadata map; `ValidateYamlInput` requires a
  nil or empty one.

## Model

| member | source | states |
|---|---|---|
| Validate.ValidateYamlInput | pkg/api/validate.go:24-40 | for a spec whose metadata map is nil or empty (a non-empty one crashes the validator, api.go:72), the result is nil exactly when every tag constraint holds over Spec; otherwise it is the whole non-empty violation list; only Spec is read |
| Validate.Verdict | pkg/api/validate.go:29-39 | on any cluster spec: nil exactly when every tag constraint holds, otherwise the whole non-empty violation list |
| Validate.Violations | pkg/api/api.go:35-132 | the list of field errors is empty if and only if the cluster spec satisfies the independent conjunction `Valid` |
| Validate.HeadViolations | pkg/api/api.go:37-51 | no error for ProjectId..Regional iff ProjectId, Region, Version are set, Private/Regional are "true"/"false", Addons and Network are present and valid |
| Validate.ListsViolations | pkg/api/api.go:59-69 | no error iff every present taint is valid, NodePools is non-nil and every pool is valid |
| Validate.TaintBlockViolations | pkg/api/api.go:59 | an absent taint list gives no error; a present one gives none iff every taint is valid |
| Validate.PoolBlockViolations | pkg/api/api.go:69 | no error iff NodePools is non-nil and every pool is valid |
| Validate.OptionalBlockViolations | pkg/api/api.go:88-108 | optional blocks (authorized networks, usage export, stub domains, encryption, workload identity) give no error iff each present one is valid |
| Validate.EarlyBlockViolations | pkg/api/api.go:88-93 | no error iff every present authorized network and stub domain is valid and a present usage-export block names its dataset |
| Validate.LateBlockViolations | pkg/api/api.go:96-108 | no error iff a present encryption block is valid and a present workload identity block names its namespace |
| Validate.TailViolations | pkg/api/api.go:116-132 | no error iff DefaultMaxPodsPerNode in [8,110], Tpu/Alpha/IntraNodeVisibility are "true"/"false", a present bastion has a zone |
| Validate.AddonsViolations | pkg/api/api.go:377-413 | no error iff Istio/Cloudrun/NetworkPolicy/HPA are "true"/"false" and Logging/Monitoring are set to one of their two services |
| Validate.NetworkViolations | pkg/api/api.go:145-155 | no error iff the subnet name is set, the three ranges are non-empty IPv4 CIDRs and the master block is a CIDR |
| Validate.NodePoolViolations | pkg/api/api.go:225-310 | no error iff 0<=MinCount<=MaxCount<=2000, MaxPodsPerNode in [8,110], disk/image type enumerations, LocalSSDCount in [0,2], InitialNodeCount non-zero and <= MaxCount, metadata mode, email, Gvisor |
| Validate.TaintViolations | pkg/api/api.go:343-350 | no error iff the key has 1..250 characters and the value at most 63 |
| Validate.AuthorizedNetworkViolations | pkg/api/api.go:187-191 | no error iff CidrBlock is a present CIDR and DisplayName is present |
| Validate.StubDomainViolations | pkg/api/api.go:210-213 | no error iff the address list is present and every address is IPv4 |
| Validate.AddressViolations | pkg/api/api.go:213 | no error iff the address is a dotted-quad IPv4 address |
| Validate.ResourceUsageViolations | pkg/api/api.go:200 | no error iff DatasetId is present |
| Validate.WorkloadIdentityViolations | pkg/api/api.go:221 | no error iff IdentityNamespace is present |
| Validate.BastionViolations | pkg/api/api.go:168-174 | no error iff the bastion's Zone is non-empty |
| Validate.DatabaseEncryptionViolations | pkg/api/api.go:203-207 | no error iff State is ENCRYPTED or DECRYPTED and KeyName is present |
| Validate.ListViolations | pkg/api/api.go:69 | a `dive` reports nothing iff every element reports nothing, and every element's errors occur in the list |
| Validate.TaintListViolations | pkg/api/api.go:59 | the taint list reports nothing iff every taint is valid |
| Validate.PoolListViolations | pkg/api/api.go:69 | the pool list reports nothing iff every pool is valid |
| Validate.AuthorizedNetworkListViolations | pkg/api/api.go:88 | the authorized-network list reports nothing iff every entry is valid |
| Validate.StubDomainListViolations | pkg/api/api.go:93 | the stub-domain list reports nothing iff every entry is valid |
| Validate.Check2 | pkg/api/api.go:229 | a field with two tags is clean iff both hold, and a failing first tag is the one reported |
| Validate.MinAboveMaxReportedTwice | pkg/api/api.go:229-232 | MinCount above MaxCount is reported on MinCount (ltefield) and on MaxCount (gtefield) |
| Validate.BadRangesReported | pkg/api/api.go:149-153 | three set but malformed subnet ranges give three `cidrv4` errors |
| Validate.EveryPoolReported | pkg/api/validate.go:31-36 | all errors of every pool occur in the cluster's list: errors are collected, not cut short |
| Defaults.SetApiDefaultValues | pkg/api/default_values.go:28-110 | a failed re-read is returned and leaves the document alone; otherwise the spec becomes `Defaulted(old spec, original)` and the metadata is untouched |
| Defaults.DefaultNodePools | pkg/api/default_values.go:70-85 | the pool loop yields, pool by pool, the merged pool with AutoRepair/AutoUpgrade taken from original pool i when set |
| Defaults.RestoreAddons | pkg/api/default_values.go:91-107 | the five addon booleans the original set are written back, the rest stay |
| Defaults.Defaulted | pkg/api/default_values.go:61-107 | the result has Addons, the same number of pools, and can be defaulted again against the same original |
| Defaults.AddonsFieldDefaults | pkg/api/api.go:381-413 | after the pass each Addons text field, in the given or the allocated block, keeps a set value and otherwise takes its tag default: Istio "true", Cloudrun "false", NetworkPolicy and HPA "true", Logging and Monitoring the `/kubernetes` services |
| Defaults.AddonsAlwaysPresent | pkg/api/default_values.go:61-65 | Addons and all its pointers are set after the pass; with no addons anywhere it is exactly the default addons block |
| Defaults.ClusterFieldDefaults | pkg/api/api.go:39-129 | Private, Version, Regional, Tpu, Alpha, IntraNodeVisibility, DefaultMaxPodsPerNode take their tag default when empty and keep a set value |
| Defaults.ClusterPointerDefaults | pkg/api/api.go:62-103 | OauthScopes (the five scopes), IssueClientCertificate and ServiceAccount take their default when nil or empty and keep a set value |
| Defaults.UntaggedClusterFieldsUnchanged | pkg/api/default_values.go:65 | every cluster field without a default tag leaves the pass as it came in |
| Defaults.RestoredBooleans | pkg/api/default_values.go:87-107 | RemoveDefaultNodePool and the five addon booleans equal the original's value when it set them (even `false` against a `true` default), else what the merge left |
| Defaults.PoolFieldDefaults | pkg/api/api.go:229-310 | each defaulted pool field takes its default when empty (an explicit 0 included) and keeps a set value, e.g. ImageType "foo" survives |
| Defaults.UntaggedPoolFieldsUnchanged | pkg/api/default_values.go:72 | pool fields without a default tag, and each pool's own metadata, are unchanged |
| Defaults.PoolAutoFlags | pkg/api/default_values.go:76-84 | AutoRepair/AutoUpgrade of pool i are original pool i's when set, else true and the merged AutoUpgrade |
| Defaults.PoolsIndependent | pkg/api/default_values.go:71-85 | pool i of the result depends only on working pool i and original pool i |
| Defaults.SameFileKeepsExplicitBooleans | pkg/api/default_values.go:30-31 | when both parses agree, every restored boolean written in the file survives and an absent one gets its default |
| Defaults.DefaultingIdempotent | pkg/api/default_values.go:61-107 | running the pass again with the same original changes nothing |
| Scenarios.DefaultsAreValid | pkg/api/api.go:225-310 | the default node pool and the default addons satisfy their own constraints |
| Scenarios.BlankPoolBecomesDefault | pkg/api/default_values.go:71-85 | a pool that sets nothing comes out as the default pool |
| Scenarios.MinimalInputValidatesAfterDefaulting | pkg/api/validate_test.go:21-33 | a spec naming only project, region, a valid network and blank pools is valid, with no violations, once defaulted |
| Scenarios.ExampleNetworkValid | pkg/api/api.go:145-155 | a network whose ranges are 10.0.0.0/24 satisfies the network constraints |
| Scenarios.ExampleValidatesAfterDefaulting | pkg/api/validate_test.go:21-33 | a concrete one-pool example validates after defaulting |
| Scenarios.UnknownImageTypeFailsAfterDefaulting | pkg/api/validate_test.go:35-51 | an image type outside the enumeration survives defaulting and makes validation fail |
| Scenarios.BadSubnetsFailAfterDefaulting | pkg/api/validate_test.go:53-69 | subnet ranges "bad" survive defaulting and each yields a `cidrv4` error |
| Syntax.CidrFromParts | pkg/api/api.go:149 | an IPv4 address, `/`, and a prefix length up to 32 form a CIDR |
| Syntax.IPv4FromOctets | pkg/api/api.go:213 | four octets joined by dots form an IPv4 address |
| Syntax.CidrAccepted | pkg/api/api.go:149 | "10.0.0.0/24" is a CIDR |
| Syntax.CidrRejected | pkg/api/validate_test.go:57-59 | "bad" and "" are not CIDRs |
| Strings.Split | generator/flagparser.go:30-32 | a split has at least one piece, no piece holds the separator, and separator-free text is one piece |
| Strings.JoinSplit | generator/flagparser.go:46-47 | joining the pieces of a split with its separator gives the text back |
| Strings.SplitConcat | generator/flagparser.go:30-32 | splitting text at one separator splits the two sides independently, so a separator in a piece only adds pieces around it |
| Strings.PieceSurvivesSplit | generator/flagparser.go:68-83 | a separator-free piece of a join is among the pieces its split gives back, whatever the other pieces hold |
| Strings.SplitJoin | generator/flagparser.go:46-47 | splitting a join of separator-free pieces gives the pieces back |
| FlagParser.Vars.constructor | generator/flagparser.go:24-26 | NewVars starts with every field empty or false |
| FlagParser.Vars.Set | generator/flagparser.go:29-61 | the fields and the error after Set are those of applying the comma-separated pieces left to right until one fails |
| FlagParser.Vars.Type | generator/flagparser.go:63-65 | the flag type name is "Vars" |
| FlagParser.ParseBoolOrFalse | generator/flagparser.go:50-55 | the parsed value is true exactly for the six spellings strconv accepts as true; false otherwise, including unparsable text |
| FlagParser.SplitKeyValue | generator/flagparser.go:32 | in `k=v` or `k=v=...` the key is k and the value is v |
| FlagParser.InvalidExactlyWithoutEquals | generator/flagparser.go:32-36 | a piece is rejected with "input is invalid" exactly when it holds no `=` |
| FlagParser.EmptyInputInvalid | generator/flagparser.go:30-36 | an empty flag value is invalid input and changes nothing |
| FlagParser.UnknownKeyRejected | generator/flagparser.go:56-57 | an unknown key gives "Unknownn field:" followed by the key |
| FlagParser.KeyWritesField | generator/flagparser.go:38-55 | each key writes its own field with the value (zones quoted, booleans parsed); use-istio writes Private; UseIstio never changes |
| FlagParser.ZonesQuoted | generator/flagparser.go:45-47 | a space-separated list of zones is stored quoted and comma-separated |
| FlagParser.ZonesExample | generator/flagparser.go:45-47 | `a b` is stored as `"a","b"` |
| FlagParser.ApplyPiecesAppend | generator/flagparser.go:30-60 | running a+b is running a, then b from its result if a did not fail |
| FlagParser.ErrorKeepsEarlierPieces | generator/flagparser.go:31-36 | a piece without `=` stops the run with "input is invalid" and keeps what earlier pieces set |
| FlagParser.LaterDuplicateWins | generator/flagparser.go:31-55 | of two assignments to the same key, any of the seven, the later one alone decides the fields |
| FlagParser.LaterPrivateWins | generator/flagparser.go:50-55 | `private` and `use-istio` both write Private: of two assignments to either key the later value decides Private and nothing else changes |
| FlagParser.Vars.TFVars | generator/flagparser.go:68-83 | the tfvars text is the fixed project_name, project_id, service_account_id lines, then zones and region when set, joined by newlines |
| FlagParser.Vars.String | generator/flagparser.go:86-97 | the flag's text is its seven escaped pieces, in field order, joined by commas |
| FlagParser.TFVarsIsJoinedLines | generator/flagparser.go:68-83 | the tfvars text is its lines joined by newlines |
| FlagParser.TFVarsSplitsIntoLines | generator/flagparser.go:68-83 | the tfvars block splits into project_name, project_id, service_account_id, then zones and region only when set |
| FlagParser.SetThenTFVarsHasLine | generator/flagparser.go:39-80 | after setting a plain text key to a non-empty value, the tfvars block holds the line `k="v"`, whatever the other fields hold, newlines included |
| FlagParser.StringSplitsIntoFields | generator/flagparser.go:86-97 | String splits on commas into its seven escaped pieces, one per field, when no field holds a comma |

## Left out

- Reading and strictly decoding the YAML file (`UnmarshalGkeTF`) is not part of
  this model. The parsed tree is the `GkeTF` object, and the second parse is
  the `original` parameter, whose failure is the only error modelled.
- The errors `defaults.Set` and `mergo.Merge` could return are not modelled:
  on these plain structs they do not occur.
- The creasty/defaults, mergo and go-playground/validator libraries are
  modelled by their observable effect. This model assumes that mergo's
  non-override merge replaces `""`, `0`, nil and empty lists, and that it
  merges through a non-nil pointer, so a `false` behind a pointer takes a
  `true` default.
- Validate.ValidateYamlInput: a spec with a non-empty metadata map is outside
  its precondition, because the validator panics there (a `dive` with no tag
  after it); the panic itself is not modelled.
- Defaults.MergePtr: when both sides hold a map or struct pointer, mergo would
  merge through it; the default trees here never set such a pointer, so the
  working value is kept.
- The `cidrv4`, `ipv4` and `email` checks are approximations, not Go's
  `net.ParseCIDR`/`net.ParseIP` or the validator's email pattern.
  - IPv4 is a dotted quad of decimal octets without leading zeros.
  - CIDR is such an address, `/`, and a prefix length of at most 32.
  - An email is two non-empty parts around a single `@`.
- Violation messages are the field path and the failing tag, not the
  validator's formatted text. The klog logging is not modelled.
- Node pools are values in a sequence, not `*GkeNodePool` pointers, and every
  pointer field is a value `Option`. The pass does create shared pointers: the
  non-override merge points each nil field (Preemptible, AutoUpgrade,
  OauthScopes, ...) at the default pool's own pointer, so all pools that
  lacked it share one. Nothing writes through such a shared pointer, so
  value semantics give the same results; the sharing itself is not modelled.
  Likewise the write-throughs `*gkeTF.Spec.Addons.VPA = ...` are field
  replacements; the pointers they go through are never nil after the merge.
- A nil pool element (`nodePools: [~]`) cannot be represented; the pool loop
  would panic on it.
- Tags that Go's struct-tag lookup cannot read are not constraints:
  - DiskSizeGB's `validate` (a stray comma; its default of 100 is read);
  - MinCpuPlatform (`validate=`);
  - the taint Effect enumeration (missing quote);
  - EnableNetworkEgressMetering's default and check (space after `default:`);
  - ObjectMeta's misspelt `valdiate`;
  - the node-pool Taints tag, which is commented out.
- The command line (`cmd/`), template rendering (`pkg/templates/`,
  `generator/generator.go`), the file checks (`pkg/files/`) and the analyzer
  (`pkg/analyzer/`) are not part of this model: they are file system and process
  glue around the modelled core.
- Vars.TFVars returns the text as a string, not as a byte slice.
