# Compute worker core in Dafny

This project models the two in-memory components of the compute worker.

**The resource ledger** (`resources/resource_manager.go`). The worker has a fixed budget of CPU, in millicpu, and memory, in MiB. It tracks how much of that budget is still free and which allocations are outstanding, keyed by allocation identifier.

- The model is the class `Resources.ResourceManager`, with fields `total`, `free` and `allocs`.
- Every method keeps the ledger invariant `LedgerInvariant`:
  - free is the total minus the sum of all allocations;
  - every allocation meets the minimums of 100 millicpu and 128 MiB;
  - free is never negative while anything is allocated.
- The allocation checks run in the original's order. They are the function `Admit`, which `AllocateResources` follows branch by branch.

**The workload manager** (`workload/workload.go`). This part covers:

- the two configuration loops of `Init`:
  - the supported workload types, a comma-separated list;
  - the preinstalled images, a comma-separated list;
- the type dispatch of `StartWorkload`;
- the checks and the image cache of `StartDockerWorkload`.

The Docker daemon is `Workload.DockerClient`. It records every pull and answers each pull with success or failure as it sees fit, so the proofs hold for either answer.

Each loop and each state change is a method that is proved against a specification function:

- `ParseSupported` specifies the supported-workloads loop;
- `PreinstalledImages` specifies the preinstalled-images loop;
- `DockerStart` specifies one start of a Docker workload.

The properties are proved about those functions.

Go's `strings.Split` and `strings.TrimSpace` are modelled in `Strings`, over `seq<char>`. `IsSpace` is Go's `unicode.IsSpace`. Error values are modelled as datatype constructors: only the error kind matters, not its text or wrapping.

## Model

| member | source | states |
|---|---|---|
| `Resources.Admit` | resources/resource_manager.go:63-76 | A request is granted exactly when it fits the free CPU and memory and meets both minimums. The verdict is never AllocationNotFound. |
| `Resources.CapacityErrorsTakePrecedence` | resources/resource_manager.go:64-69 | A CPU shortfall is reported as NotEnoughCPU whatever else is wrong with the request. With enough CPU, a memory shortfall is reported as NotEnoughMemory. |
| `Resources.MinimumErrorsOnlyWhenFits` | resources/resource_manager.go:71-76 | CPUAllocationTooLow is reported exactly when the request fits and asks for less than 100 millicpu. MemAllocationTooLow is reported exactly when it fits, meets the CPU minimum and asks for less than 128 MiB. |
| `Resources.NoOvercommit` | resources/resource_manager.go:63-82 | Two requests whose sum exceeds the free capacity cannot both be granted one after the other. The second gets a capacity error. |
| `Resources.SumAtLeastMinimums` | resources/resource_manager.go:71-82 | Allocations that each meet the minimums add up to at least 100 millicpu and 128 MiB per allocation. |
| `Resources.LedgerInvariant` | resources/resource_manager.go:19-24 | The ledger's invariant. Free is the total minus the sum of the outstanding allocations. Every allocation meets the 100 millicpu and 128 MiB minimums. Free is non-negative while anything is allocated. |
| `Resources.FreeWithinTotal` | resources/resource_manager.go:59-111 | For a non-negative budget the ledger invariant gives 0 <= free <= total. It also bounds the number of allocations by how many minimum-size ones fit the budget. |
| `Resources.FreeIsInt64` | resources/resource_manager.go:10-14 | With an int64 budget the free amount stays within int64, so the in-place subtraction and addition never wrap around. |
| `Resources.AllocatePreservesInvariant` | resources/resource_manager.go:78-82 | Granting an admitted request under a fresh identifier keeps the ledger invariant. |
| `Resources.FreePreservesInvariant` | resources/resource_manager.go:93-100 | Refunding and deleting an existing allocation keeps the ledger invariant. |
| `Resources.ResourceManager.constructor` | resources/resource_manager.go:44-57 | Total and free are both the reserved amounts, nothing is allocated, and the invariant holds. |
| `Resources.ResourceManager.AllocateResources` | resources/resource_manager.go:59-87 | It fails exactly when Admit reports an error, returns that error and changes nothing. On success it returns the new identifier, lowers free by exactly the request, and adds only that key. The invariant is kept. |
| `Resources.ResourceManager.FreeAllocation` | resources/resource_manager.go:89-104 | An unknown identifier, including one already freed, gives AllocationNotFound and changes nothing. A known one adds back exactly its amount and removes only its key. The invariant is kept. |
| `Resources.ResourceManager.GetFreeResources` | resources/resource_manager.go:106-111 | It returns the free amount and changes nothing. |
| `Resources.AllocateThenFree` | resources/resource_manager_test.go:23-41 | Allocating and then freeing the returned identifier restores free and the allocations exactly. |
| `Resources.TestResourceManager` | resources/resource_manager_test.go:9-89 | The unit test's scenario on a 1000 millicpu / 1280 MiB budget. The first allocation and free round-trip the free amount, nine minimum allocations succeed, and the five failing calls give NotEnoughCPU, NotEnoughMemory, CPUAllocationTooLow, MemAllocationTooLow and AllocationNotFound, in that order. |
| `Strings.Split` | workload/workload.go:75 | Go's strings.Split gives at least one piece, and no piece holds the separator. |
| `Strings.JoinSplit` | workload/workload.go:75 | Joining the pieces of a split gives the input back. |
| `Strings.SplitJoin` | workload/workload.go:75 | Splitting a join of separator-free pieces gives the pieces back. |
| `Strings.TrimSpace` | workload/workload.go:63 | The result neither starts nor ends with white space. |
| `Strings.TrimSpaceIsInfix` | workload/workload.go:63 | TrimSpace keeps an infix of its input and drops only white space around it. |
| `Strings.BlankTrimsToEmpty` | workload/workload.go:63 | A string of white space trims to the empty string. |
| `Strings.TrimSpaceKeepsTrimmed` | workload/workload.go:63 | A string with no white space at either end is left as it is. |
| `Workload.FirstRejected` | workload/workload.go:76-82 | The position of the first token that is neither blank nor a known type. Every token before it is blank or known. |
| `Workload.ParseSupported` | workload/workload.go:68-85 | An empty configuration gives exactly {dev, docker}. The supported set only ever holds known types, and the only error is UnknownWorkloadType. A rejected configuration leaves nothing supported, as with the nil map the original leaves on an unknown first token. |
| `Workload.ParseAcceptsIff` | workload/workload.go:75-82 | A non-empty configuration is accepted exactly when every untrimmed token is blank or exactly "dev", "docker" or "firecracker". |
| `Workload.ParseCollectsEveryToken` | workload/workload.go:75-84 | An accepted non-empty configuration supports exactly its non-blank tokens. |
| `Workload.ConfigRoundTrip` | workload/workload.go:75-84 | A comma-joined list of known types configures exactly those types, with no error. |
| `Workload.ParseSupportedWorkloads` | workload/workload.go:68-85 | The supported-workloads loop, with the map created before it is written, computes ParseSupported. |
| `Workload.ParseSupportedWorkloadsAsWritten` | workload/workload.go:68-85 | The loop as written panics exactly when the configuration is non-empty and some known token comes before the first unknown one. Where it does not panic, it agrees with ParseSupported. |
| `Workload.NilMapCounterexample` | workload/workload.go:83 | For "dev,docker" the loop as written panics, while the intended reading supports dev and docker with no error. |
| `Workload.PreinstalledImages` | workload/workload.go:58-66 | The images a preinstalled-images configuration names. Each comes from a token that is non-empty before trimming, with the white space at both ends trimmed off. |
| `Workload.PreinstalledImagesAreTrimmed` | workload/workload.go:59-63 | Every preinstalled image name is free of white space at both ends. |
| `Workload.PreinstalledImagesHaveNoComma` | workload/workload.go:59-63 | No preinstalled image name holds a comma. |
| `Workload.PreinstalledRoundTrip` | workload/workload.go:59-66 | For non-empty names without commas or surrounding white space, their comma-joined list names exactly those images. |
| `Workload.BlankTokenSeedsEmptyName` | workload/workload.go:60-63 | A configuration of only white space passes the blank test, which runs before trimming, and names the empty image. |
| `Workload.SeedPreinstalledImages` | workload/workload.go:58-66 | The preinstalled-images loop with a store in place of the lookup adds exactly PreinstalledImages to the cache. |
| `Workload.SeedPreinstalledImagesAsWritten` | workload/workload.go:58-66 | The loop as written only looks names up, so the cache is left unchanged whatever the configuration. |
| `Workload.PreinstalledCounterexample` | workload/workload.go:65 | Preinstalling "nginx" leaves it out of the cache as written and puts it in as intended. |
| `Workload.DockerStart` | workload/workload.go:127-150 | The checks, in order:<br>• docker not supported gives UnsupportedWorkloadType;<br>• a payload that is not a DockerPayload gives UnknownPayload;<br>• each gives no pull and no cache change.<br>The start succeeds exactly when the checks pass and the image is cached or its pull succeeds. A success leaves the image cached. The cache only grows, and only by the requested image. A miss that passes both checks pulls the image exactly once, and nothing else pulls. A failed start leaves the cache unchanged. |
| `Workload.SecondStartHits` | workload/workload.go:136-143 | After a successful start, starting the same payload again is a cache hit with no pull and no change, whatever the daemon would answer. |
| `Workload.RunPullsEachImageOnce` | workload/workload.go:136-143 | Over any sequence of starts the cache only grows. While every pull succeeds, no image is pulled twice and no cached image is pulled. |
| `Workload.DockerClient.ImagePull` | workload/workload.go:138 | Every pull is recorded with the daemon. |
| `Workload.WorkloadManager.constructor` | workload/workload.go:54-56 | A new manager has an empty image cache, a nil (empty) supported set, and no Docker client. |
| `Workload.WorkloadManager.StartDockerWorkload` | workload/workload.go:127-150 | The error, the new cache and the pulls sent are those of DockerStart for the daemon's answer. The manager stays valid. |
| `Workload.WorkloadManager.StartWorkload` | workload/workload.go:100-119 | Dispatch by type:<br>• dev returns the new workload identifier with no error and changes nothing, whatever is supported;<br>• a type other than dev or docker, including firecracker, returns "" and UnknownWorkloadType;<br>• docker returns "" and the wrapped StartDockerWorkload error exactly when that start fails, and otherwise the identifier. |
| `Workload.Init` | workload/workload.go:53-97 | The cache holds the preinstalled images and the supported set is ParseSupported's. A parse error is returned at once, with no client. Otherwise a supported docker creates a fresh client or reports DockerClientInitFailed. Without an error the manager is valid. |

## Left out

- `utils.GenRandomID` is randomness. An identifier is its prefix ("alloc_" or "wrkl_") followed by a suffix the caller supplies.
- `Resources.ResourceManager.AllocateResources` requires that suffix to give an identifier not already allocated when the request is granted. The original draws random identifiers and does not check for collisions (resources/resource_manager.go:79-82), so a collision, which would overwrite an allocation, is not modelled.
- `Resources.ResourceManager.constructor` takes the reserved CPU and memory as parameters. In the original they come from the environment through utils/env.go, which is not part of this model.
- `Resources.Resources` holds unbounded integers; the original fields are int64. `FreeIsInt64` shows that with an int64 budget the free amount cannot leave int64. Requests outside int64 are not excluded.
- `Resources.LedgerInvariant` states 0 <= free only while something is allocated, and `FreeWithinTotal` proves 0 <= free <= total for a non-negative budget. Nothing in the original rules out a negative reserved budget; such a budget admits no allocation.
- The mutex of the ledger and `syncx.Map` in the workload manager are concurrency. Every operation is one atomic sequential step. Two concurrent starts that both miss the cache and both pull are outside this model.
- `Workload.DockerClient` stands for the Docker daemon. Client creation is the `clientAvailable` parameter of `Init`, and a pull's answer is the daemon's choice; what a pull downloads is not modelled.
- The package-level Docker client is the `client` field of the manager.
- The container create, wait and timeout-kill lifecycle is only TODO comments in the original (workload/workload.go:145-148), so it is not modelled. The `Timeout` field of a workload is carried but unused, as in the original.
- The package-level `Manager` variable is the manager `Init` returns.
- Logging and the text of wrapped errors are not modelled.
- main.go (process lifecycle, signals, HTTP and metrics servers) is not part of this model.
- resources/disk.go (a `statfs` wrapper) is not part of this model.
- The environment reads of utils/env.go are not part of this model. The two configuration strings are parameters of `Init`.
- Configuration strings are `seq<char>`, that is, valid Unicode text. A Go string is a byte sequence and may hold bytes that are not valid UTF-8; such an environment value has no counterpart in this model. `Split` and `TrimSpace` agree with Go on valid UTF-8.
- `Workload.Init` uses the corrected forms of its two loops, as listed under Findings. The loops as written are modelled beside them.

## Findings

| source | as written | input that shows it | evidently intended | confidence | as-written member | corrected member |
|---|---|---|---|---|---|---|
| workload/workload.go:83 | `SupportedWorkloads` is never created when the configuration is non-empty (workload/workload.go:54-56). The first known token is written into a nil map, which panics. | SUPPORTED_WORKLOADS = "dev,docker" (`Workload.NilMapCounterexample`) | Create the map before the loop and collect the non-blank known tokens into it. An unknown token is an error that leaves nothing supported. | high; not executed | `Workload.ParseSupportedWorkloadsAsWritten` | `Workload.ParseSupportedWorkloads` |
| workload/workload.go:65 | Each preinstalled image is only looked up in the cache, so the cache is never seeded. | PREINSTALLED_IMAGES = "nginx" (`Workload.PreinstalledCounterexample`) | Store each trimmed name in the cache | high; not executed | `Workload.SeedPreinstalledImagesAsWritten` | `Workload.SeedPreinstalledImages` |
