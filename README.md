# Quest-page token update and contract address resolution

This project models two parts of a web front end for an NFT project. The NFT is the "Kamon" token, whose metadata reflects a member's points.

1. **The token-update flow of the quest page** (`pages/quests/index.tsx`), in module `QuestPage`. The page keeps three pieces of state:
   - `tokenId`, the token to update;
   - `finalTokenUri`, the new metadata URI;
   - `updateTxLaunched`, a tri-state "write launched" flag that starts `undefined`.

   Two kinds of event change that state:
   - **The metadata wrapper completes.** It has an account address and token JSON or not, a string from the metadata generator, and the on-chain token id.
   - **The write effect runs.** It issues one `updateToken` call when a URI is recorded and no write is launched. It raises the flag before the call. It maps the writer's answer to a notification.

   The pure step functions `Wrapper` and `Effect` specify one event each. `Run` replays a sequence of events from a state and collects the writer calls issued. The class `QuestFlow` holds the three fields and updates them in place, with one method per event. Its ghost history ties it to `Run` from the first render.

2. **Contract address resolution** (`utils/contractAddress.ts`), in module `ContractAddress`. This is a constant table from a contract name and an EIP-155 chain id to an address. Rinkeby is 4, Goerli 5 and Polygon 137. A missing or zero chain id falls back to a default chain. The default is Polygon in production and Goerli otherwise. The production switch is a boolean parameter.

The collaborators are inputs. They are the metadata generator (`updateTokenMetadata`), the token writer (`updateToken`) and the token-id read (`tokenIdOf`). React may run the effect at any time and any number of times, so each run is an `EffectRuns` event that may appear anywhere in a trace. This is more than React does, which reruns the effect only when one of its dependencies changes (`finalTokenUri`, `updateToken`, `toast` or `t`).

Each wrapper run is one event: its three state updates after the generator answers (lowering the flag, then setting the token id and the URI) commit together. Provided they do, as under React's automatic batching, the properties below also hold for React's schedule. If they rendered one by one and `updateToken` changed identity with the token id, an effect run could see the new id with the old URI. The model does not cover that case.

The page does not compare points, re-fetch the generated metadata or reset its state after a write. Two further consequences of the code:
- The writer's answer never lowers the flag. Only a later non-error wrapper run lowers it.
- A wrapper run whose token id is unresolved still lowers the flag and keeps the previously recorded URI and id. An effect run after it would write that previous id and URI again (`ZeroIdAbortRearmsPreviousWrite`). Such a run happens in React only if `updateToken`, `toast` or `t` changes identity, since `finalTokenUri` stays the same. Those values come from hooks that are not part of this model. Either way there is still at most one write per non-error wrapper run.

## Model

| member | source | states |
|---|---|---|
| ContractAddress.Entries | utils/contractAddress.ts:14-29 | the table: every row has Goerli and Polygon entries and no chain other than Rinkeby, Goerli and Polygon; only the badge lacks Rinkeby |
| ContractAddress.Truthy | utils/contractAddress.ts:36 | the fallback's test: a chain id is falsy exactly when it is absent or 0 |
| ContractAddress.DefaultChainId | utils/contractAddress.ts:31-33 | the default chain is Polygon in production and Goerli otherwise; it is never 0 and every contract name has an entry for it |
| ContractAddress.GetContractAddress | utils/contractAddress.ts:35-37 | a truthy chain id gives the table entry for that name and chain, or nothing when there is none; a falsy chain id (absent or 0) always gives the entry for the default chain |
| ContractAddress.FalsyChainFallsBack | utils/contractAddress.ts:36 | a lookup with an absent or zero chain id equals the lookup with the default chain id |
| ContractAddress.NoChainIdAlwaysResolves | utils/contractAddress.ts:14-36 | with no chain id, or with chain id 0, every name resolves to a string, whichever default chain the environment picks (the string is empty for the badge on Polygon) |
| ContractAddress.BadgeEntries | utils/contractAddress.ts:25-28 | the badge contract has no Rinkeby entry, an empty Polygon entry and a Goerli entry |
| ContractAddress.TokenContractsChains | utils/contractAddress.ts:15-24 | for the ERC-20 and NFT contracts, a non-zero chain id resolves exactly when it is Rinkeby, Goerli or Polygon |
| QuestPage.IndexOf | pages/quests/index.tsx:74 | JavaScript `indexOf`: the result is the first position where the pattern occurs, or -1 exactly when it occurs nowhere |
| QuestPage.IsGeneratorError | pages/quests/index.tsx:74 | a generator result is an error exactly when it begins with "Error" |
| QuestPage.ResolvedTokenId | pages/quests/index.tsx:85-86 | a present token id is used as it is; the id is 0 exactly when the read gave nothing or 0 |
| QuestPage.Wrapper | pages/quests/index.tsx:65-89 | the generator is consulted only with an address and token JSON; a result beginning with "Error" is reported with its own text and changes nothing; any other result lowers the flag; id and URI are recorded together, as the resolved id and the generator's exact string, only when the id is non-zero; otherwise they are unchanged |
| QuestPage.NoticeFor | pages/quests/index.tsx:96-114 | 'success', 'rejected' and 'error' map to their own notifications, each exactly for that answer |
| QuestPage.MayWrite | pages/quests/index.tsx:92 | a write is permitted only with a non-empty URI and never when the flag is true; an undefined flag, like false, permits it |
| QuestPage.Effect | pages/quests/index.tsx:91-117 | a writer call is issued exactly when a URI is recorded and the flag is not true; it carries the recorded id and URI; it raises the flag; a skipped run changes nothing; the id and URI never change |
| QuestPage.QuestFlow.constructor | pages/quests/index.tsx:42-45 | the page starts with id 0, an empty URI and an undefined flag, with no events and no writes |
| QuestPage.QuestFlow.UpdateTokenMetadataWrapper | pages/quests/index.tsx:65-89 | the new fields and the outcome are those of `Wrapper` on the old fields; no writer call is issued |
| QuestPage.QuestFlow.WriteEffect | pages/quests/index.tsx:91-117 | the new fields and the outcome are those of `Effect` on the old fields; the call, if any, is appended to the writes; the writes so far never outnumber the wrapper runs that lowered the flag |
| QuestPage.WritesBoundedBySuccesses | pages/quests/index.tsx:84-95 | over any sequence of events, the writes plus a still-permitted write never exceed the flag-lowering wrapper runs plus the write the start state permitted |
| QuestPage.WritesBoundedFromInitial | pages/quests/index.tsx:84-95 | from the first render, there are never more writer calls than non-error wrapper runs |
| QuestPage.SingleFlight | pages/quests/index.tsx:92-93 | between two non-error wrapper runs, any number of effect runs issue at most one writer call, and none when the flag is already true |
| QuestPage.WritesComeFromRecordedRuns | pages/quests/index.tsx:82-93 | from the first render, every writer call writes a non-empty URI to a non-zero id, both taken from one earlier non-error wrapper run's generator string and token id |
| QuestPageScenarios.ErrorOnlyAtStart | pages/quests/index.tsx:74 | "Error: rate limited" is a generator error; "xError" and the empty string are not |
| QuestPageScenarios.OneSuccessOneWrite | pages/quests/index.tsx:82-116 | one non-error wrapper run with a resolved id, followed by three effect runs, issues exactly one writer call, with that id and URI |
| QuestPageScenarios.ZeroIdAbortRearmsPreviousWrite | pages/quests/index.tsx:84-93 | a non-error wrapper run with an unresolved id after a write re-permits the write of the previous id and URI |
| QuestPageScenarios.GenerationErrorWritesNothing | pages/quests/index.tsx:73-81 | after a generator error, the page state is still the initial one and an effect run writes nothing |

## Left out

- JSX rendering, button state and the loading flags (`pages/quests/index.tsx:119-211`) are presentation only.
- Toast texts and translation keys are left out. Notifications are the `Notice` and `WrapperOutcome` values. The informational "generating" toast is shown exactly when the outcome is not `NotReady`.
- Wallet connection and the account read are I/O with a wallet provider. The presence of an address is a boolean input.
- Fetching the current token JSON (`pages/quests/index.tsx:54-63`) is network I/O. Its presence is a boolean input.
- The hooks `useUpdateTokenMetadata`, `useUpdateToken`, `useTokenIdOf`, `useTokenURI`, `useHasNFT` and `useKeywordSubmit` are not part of this model. Their answers are inputs: the generator string, the writer's answer string and the optional token id.
- Number and BigInt conversions of the token id (`pages/quests/index.tsx:41, 87`) go through floating point. The id is a `nat` copied unchanged.
- React scheduling and batching are left out. Each event runs atomically with sequential assignments, and effect runs may occur at any point of a trace. The writer's answer arrives within the same event as the call.
- `hooks/useMintWithHenkaku.ts` wraps a library contract write and a decimal-to-wei conversion. It has no logic of its own.
- ContractAddress.GetContractAddress: contract names outside the table are left out. In JavaScript they throw or read prototype properties. Names are the three table keys.
- ContractAddress.Truthy: chain ids are integers. A fractional chain id, which reads no entry, and NaN, which JavaScript also treats as falsy, are left out.
- A rejected `updateTokenMetadata` or `updateToken` promise is left out. For `updateTokenMetadata`, the wrapper stops after the informational toast and changes no state, as if its event never arrived. For `updateToken`, the flag has already been raised and no notification follows, as with `NoNotice`.
