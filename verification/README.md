# Cloud FTD onboarding and ASA credential updates, modelled in Dafny

This project models the two pieces of decision logic in the Cisco Defense
Orchestrator client library:

- **Cloud FTD onboarding** (`client/device/cloudftd/create.go`, `Create`): a
  fixed pipeline of seven dependent remote calls. It reads the cloud FMC and
  then its domain info. It reads up to 1000 access policies of the first
  domain and selects the requested one. It POSTs the device and reads its
  specific device. It triggers `INITIATE_FTDC_ONBOARDING` and polls until the
  generated command is available. Between the calls sit local checks: an
  empty domain list, an unknown policy name, and performance-tier masking for
  physical devices.
- **ASA configuration updates** (`client/internal/device/asaconfig/update.go`):
  the credentials object with its conditional RSA encryption and `omitempty`
  key id. It also covers the case-insensitive wait-state test that chooses
  between the two `UpdateCredentials` body shapes, the fixed `Update` and
  `UpdateLocation` bodies, and when a PUT is issued at all.

No remote call is executed. Each call's outcome is an input: a `Result`
that is either the decoded response or an error. Each operation returns its
result together with a trace of the calls it issued, and the trace records
each call's arguments. "Aborts before the POST" and "uses the previous
step's uid" are therefore statements about the trace.

Files and modules:

| file | module | contents |
|---|---|---|
| `results.dfy` | `Results` | `Option`, `Result`, and `Error`, which separates errors passed through from collaborators, `fmt.Errorf` errors, and runtime panics |
| `text.dfy` | `Text` | infix search, ASCII upper-casing, and `EqualFold` (the model of `strings.EqualFold`) |
| `json_values.dfy` | `JsonValues` | JSON objects as built from Go structs with `json` tags; lookup of a member and of a path |
| `cloudftd_create.dfy` | `CloudFtdCreate` | data model, the reference failure table `StageError`, the reference call table `CallAsExpected`, and `Create` written as one function per stage |
| `cloudftd_create_lemmas.dfy` | `CloudFtdCreateLemmas` | properties of `Create` for its callers |
| `asaconfig_update.dfy` | `AsaConfigUpdate` | inputs, request bodies and their JSON, `Encrypt`, `CredentialsFor`, `MakeCredentials`, and the three update operations |
| `asaconfig_update_lemmas.dfy` | `AsaConfigUpdateLemmas` | properties of the credentials and bodies, stated on the JSON sent |

How `Create` is specified: `StageError(i)` says how stage `i` fails if every
earlier stage passed. A stage is one remote call plus the local checks
before the next call. `CallAsExpected(i, c)` says what call number `i` must
be. Its arguments are read from the responses, and the POST body must meet
`BodyAsExpected`. `Follows(k, run)` combines both tables for the stages from
`k` on. Each stage function is proved to produce a run that `Follows` from
its own stage. The proof uses the contract of the next stage (`ThenFollows`,
`StopFollows`).

`NewCreateInput` and `NewUpdateInput` are modelled as plain constructors
(`CloudFtdCreate.NewCreateInput`, `AsaConfigUpdate.NewUpdateInput`). They
state nothing beyond the field assignment, so they have no row below.
`makeCredentials` is modelled in two parts. `CredentialsFor` computes the
struct that is marshalled. `MakeCredentials` applies the abstract `marshal`
to that struct's JSON.

## Model

| member | source | states |
|---|---|---|
| CloudFtdCreate.FindPolicy | client/device/cloudftd/create.go:95-96 | The lookup finds nothing exactly when no returned policy has the requested name. Otherwise it returns the first policy with exactly that name. |
| CloudFtdCreate.Create | client/device/cloudftd/create.go:67-180 | The run follows both reference tables. The calls are those of stages 0, 1, … with arguments taken from the earlier responses. Every stage before the last one reached passed. A failure ends the run with the first failing stage's error, and the trace ends with that stage's call. A success issued all seven calls and returns the POST identity with the polled metadata. |
| CloudFtdCreate.ReadDomainInfoStage | client/device/cloudftd/create.go:77-84 | From stage 1 on, the run follows the tables. The domain info is read from the FMC's host, and an empty item list ends the run. |
| CloudFtdCreate.ReadAccessPoliciesStage | client/device/cloudftd/create.go:86-94 | From stage 2 on, the run follows the tables. The policies are read from the FMC host for the first domain's uuid, with limit 1000. |
| CloudFtdCreate.SelectPolicy | client/device/cloudftd/create.go:95-129 | An unknown policy name or a nil license list ends stage 2 before the POST. Otherwise the POST body meets `BodyAsExpected`. |
| CloudFtdCreate.PostDeviceStage | client/device/cloudftd/create.go:130-134 | From stage 3 on, the run follows the tables, given a body that meets `BodyAsExpected`. |
| CloudFtdCreate.ReadSpecificStage | client/device/cloudftd/create.go:138-142 | From stage 4 on, the run follows the tables. The specific device is read with the POST response's uid. |
| CloudFtdCreate.InitiateOnboardingStage | client/device/cloudftd/create.go:144-153 | From stage 5 on, the run follows the tables. The update goes to the specific uid with `INITIATE_FTDC_ONBOARDING`, and its output is ignored. |
| CloudFtdCreate.PollStage | client/device/cloudftd/create.go:155-179 | The poll uses the POST uid, 3 retries and early exit on error. Its error ends the run. Its metadata goes into the output together with the POST response's uid, name and tags. |
| CloudFtdCreateLemmas.CreateSucceedsIffAllStagesPass | client/device/cloudftd/create.go:67-180 | `Create` succeeds if and only if every stage passes. A success has issued exactly seven calls. |
| CloudFtdCreateLemmas.CreateStopsAtFirstFailure | client/device/cloudftd/create.go:72-171 | Take any stage `k` whose predecessors all passed and which fails with `e`. The result is `e` itself, and exactly `k + 1` calls were issued, so no later call was. |
| CloudFtdCreateLemmas.RemoteFailurePropagates | client/device/cloudftd/create.go:72-171 | A failed remote step's own error is returned unchanged. The lemma names which response it came from for each step. |
| CloudFtdCreateLemmas.EmptyDomainInfoAbortsBeforePolicyRead | client/device/cloudftd/create.go:82-84 | An empty domain item list fails with "fmc domain info not found". The trace is just the FMC read and the domain-info read. |
| CloudFtdCreateLemmas.UnknownPolicyAbortsBeforePost | client/device/cloudftd/create.go:95-103 | An unknown policy name fails after three calls with no POST. The message contains the requested name and the rendered list of returned policies. |
| CloudFtdCreateLemmas.PolicyNotFoundQuotesNameAndPolicies | client/device/cloudftd/create.go:97-102 | The policy-not-found error is an `fmt.Errorf` error whose text contains the requested name and the rendered policy list. |
| CloudFtdCreateLemmas.NilLicensesPanicBeforePost | client/device/cloudftd/create.go:122 | A nil license list, once the policy is found, ends the run with the dereference panic after three calls, before the POST. |
| CloudFtdCreateLemmas.PolicyReadUsesFirstDomain | client/device/cloudftd/create.go:87-91 | The access-policy read uses the FMC host, `Items[0].Uuid` of the domain info, and limit 1000. |
| CloudFtdCreateLemmas.PostBodyFields | client/device/cloudftd/create.go:113-129 | The POST body has device type CloudFtd, state "NEW", type "devices" and model false. Its FMC id is the FMC read's uid, and its name and tags come from the input. Its policy is a returned policy whose name is exactly the requested one. |
| CloudFtdCreateLemmas.PerformanceTierMasking | client/device/cloudftd/create.go:105-109 | A physical device's body has no tier, whatever the input says. A virtual device's body has the input tier. |
| CloudFtdCreateLemmas.IdsFlowBetweenSteps | client/device/cloudftd/create.go:138-167 | `ReadSpecific` uses the POST uid. `UpdateSpecific` uses the specific uid with "INITIATE_FTDC_ONBOARDING". The poll uses the POST uid, 3 retries and early exit. |
| CloudFtdCreateLemmas.OutputFromPostAndPoll | client/device/cloudftd/create.go:173-179 | A success returns the POST response's uid, name and tags, and the polled metadata. |
| AsaConfigUpdate.Encrypt | client/internal/device/asaconfig/update.go:162-177 | Encryption succeeds if and only if the cipher and both encryptions succeed. Otherwise it fails with the first failure's error. On success only the username and password change, each to its ciphertext. |
| AsaConfigUpdate.CredentialsFor | client/internal/device/asaconfig/update.go:179-197 | With no key, the credentials are the plaintext username and password with an empty key id. With a key, they are the ciphertexts with the key's id, or encryption's error. |
| AsaConfigUpdate.MakeReqBody | client/internal/device/asaconfig/update.go:114-119 | The `Update` body has exactly the members `state` = "CERT_VALIDATED" and `credentials` = the given credentials. |
| AsaConfigUpdate.MakeUpdateCredentialsReqBody | client/internal/device/asaconfig/update.go:121-136 | `stateMachineContext.credentials` is the credentials in both shapes, and it is that context's only member. A top-level `state` is present if and only if the flag is false, and its value is then "WAIT_FOR_USER_TO_UPDATE_CREDS". |
| AsaConfigUpdate.Update | client/internal/device/asaconfig/update.go:36-56 | A credentials failure returns that error with no PUT. Otherwise one PUT goes to the specific uid. Its body has exactly two members: `state` = "CERT_VALIDATED" and `credentials` = the marshalled credentials. The result is the PUT's outcome. |
| AsaConfigUpdate.UpdateCredentials | client/internal/device/asaconfig/update.go:58-79 | A credentials failure returns that error with no PUT. Otherwise one PUT carries the marshalled credentials as the only member of `stateMachineContext`. The body's only other member is a top-level `state` = "WAIT_FOR_USER_TO_UPDATE_CREDS", present if and only if the state test fails. |
| AsaConfigUpdate.UpdateLocation | client/internal/device/asaconfig/update.go:95-112 | One PUT is issued, with exactly `queueTriggerState` = "PENDING_LOCATION_UPDATE" and `stateMachineContext` = {`ipv4`: location}. The result is the PUT's outcome, so a send error gives no output. |
| AsaConfigUpdateLemmas.PlainCredentialsWithoutKeyId | client/internal/device/asaconfig/update.go:193-196 | With no public key, the JSON has only the plaintext `username` and `password` and no `keyId`. |
| AsaConfigUpdateLemmas.EncryptedCredentialsCarryKeyId | client/internal/device/asaconfig/update.go:180-190 | With a public key and successful encryption, `username` and `password` are the ciphertexts. `keyId` is present if and only if the key id is non-empty, and it then equals the key id. |
| AsaConfigUpdateLemmas.EqualPlaintextsEncryptIndependently | client/internal/device/asaconfig/update.go:167-174 | The two encryptions are separate outcomes. A username equal to the password can be sent as a different ciphertext, and the password's encryption can fail after the username's succeeded, which fails `Encrypt` with that error. |
| AsaConfigUpdateLemmas.EncryptionFailureSendsNothing | client/internal/device/asaconfig/update.go:42-45 | When cipher construction or an encryption fails, `Update` and `UpdateCredentials` return that error and issue no PUT. |
| AsaConfigUpdateLemmas.CredentialsIndependentOfState | client/internal/device/asaconfig/update.go:64-70 | For one fixed set of encryption outcomes (`rsa`), changing only the device's state changes neither the PUT target nor the credentials sent by `UpdateCredentials`: the state does not flow into the credentials. |
| AsaConfigUpdateLemmas.WaitStateIffUpperCaseMatches | client/internal/device/asaconfig/update.go:69 | For an ASCII state, the wait-state test holds if and only if the upper-cased state is "WAIT_FOR_USER_TO_UPDATE_CREDS" or "$PRE_WAIT_FOR_USER_TO_UPDATE_CREDS". |
| AsaConfigUpdateLemmas.WaitStateExamples | client/internal/device/asaconfig/update.go:69 | The test accepts a long s (U+017F) in place of 'S'. It rejects "NEW" and a truncated state. |
| Text.EqualFoldAsciiIffUpper | client/internal/device/asaconfig/update.go:69 | Take an ASCII string and an upper-case ASCII constant. Folding equality between them is the same as "upper-casing the string gives the constant". |
| Text.EqualFoldIsEquivalence | client/internal/device/asaconfig/update.go:69 | Folding equality is reflexive, symmetric and transitive. |

## Left out

- HTTP transport, URL builders, request sending and the logger are I/O. Each remote call is an input outcome, and a PUT records the target specific uid instead of a URL.
- The internals of `retry.Do` are left out: timeout, delay, the progress message and context cancellation. They are timers and concurrency. The poll is one outcome, either the metadata or an error, and the trace records its retry count and early-exit flag.
- RSA cipher construction and encryption are foreign code. They are function-valued parameters (`Rsa`), and each may fail. Each encryption of a run has its own outcome, indexed by its position (username first, password second). So equal plaintexts may get different ciphertexts, and either encryption may fail on its own.
- `json.Marshal` is the abstract total function `marshal`. Marshalling a struct of three strings cannot fail in Go, so its error branch in `makeCredentials` is not modelled. The bodies that update.go sends are modelled as JSON values that follow the struct tags: member names, field order and `omitempty`.
- The `Create` POST body is modelled as a record of field values. Its JSON member names and those of `Metadata` are not modelled.
- `accessPoliciesRes.Find` is defined outside create.go. `FindPolicy` assumes it returns the first exact-name match.
- `license.SerializeAllAsCdo` and the `%s` rendering of the policy list are not part of this model. Neither is the value of `cdo.TerraformProviderCDOIssuesUrl`. All three are parameters (`Foreign`).
- Types from other packages are opaque wrappers: the tier, the license, the tags and the specific-device record. Only the fields `Create` touches are modelled.
- `Metadata` is defined in the cloudftd package outside create.go. Only the four fields create.go sets are modelled. The polled metadata is taken whole from the poll.
- `Text.EqualFold`: it is exact only when at least one of each compared pair of characters is ASCII. For two non-ASCII characters, it accepts only equal ones and the long-s and Kelvin-sign orbits. This is weaker than Go's full Unicode simple folding. Both call sites compare against ASCII constants, so the state test is modelled exactly. Invalid UTF-8, which Go decodes as U+FFFD, cannot occur in a Dafny string.
- Collaborators are assumed to return exactly one of a value or an error, never both nil. The nil-dereference panics that a nil-value, nil-error pair would cause are not modelled.
- `client/connector/delete.go`, the `ReadAll` tests, their fixtures and the Terraform acceptance test are outside the modelled core. `delete.go` is a thin DELETE wrapper. `ReadAll` is defined outside the modelled files, and its 500-status test asserts a nil error although the test's name says an error is returned. The acceptance test runs against a live service.
- Nothing in update.go makes an encrypted field differ from its plaintext: the fields are whatever the cipher returns, and that is all the model states.
- AsaConfigUpdateLemmas.CredentialsIndependentOfState: `rsa` stands for one run's encryption outcomes, and the lemma compares two runs with the same outcomes. Real RSA encryption pads with random bytes, so two real calls with a key send different ciphertexts. The lemma states only that the device's state does not flow into the credentials.

## Notes on the code

- `Create` defines no error kinds of its own: every remote error is returned unchanged (`RemoteFailurePropagates`). The only errors it creates are the empty-domain and unknown-policy errors from `fmt.Errorf`.
- The code dereferences `*createInp.Licenses` while it builds the POST body. The dereference comes after the policy lookup and before the POST. A nil license list makes Go panic at that point. The model represents this as the terminal `Panic` outcome, so the trace still shows that no POST was issued (`NilLicensesPanicBeforePost`).
- The `keyId` field is `omitempty`. A public key whose key id is the empty string therefore produces encrypted credentials with no `keyId` member (`EncryptedCredentialsCarryKeyId`).
