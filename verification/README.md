# Model of the portal's serving, pricing, routing and membership logic

A Dafny 4.11 model of the parts of an LLM operations portal (a FastAPI backend over LiteLLM and
Kubernetes, a LiteLLM routing hook and an SSO gateway) whose behaviour is hard to see from the code:
two transformations that should undo each other, a price reconciler, a weighted rendezvous hash, four
state machines that talk to services which may fail, one fact stored in five places, and four small
algorithms. `dafny verify dfyconfig.toml` checks everything.

How the source's world appears here:

* A call to LiteLLM, Kubernetes, ArgoCD, the backend or a database takes its answer as a parameter
  (`Reply`, `Sight`, `Fate`, `fails`, `raises`), and every theorem holds for every answer. An answer may be
  lost after the call took effect.
* Rows and tables are fields of classes (`Boosts`, `Memberships`, `Benchmarks`, `Reconciliation`, `Worker`,
  `Tables`, `Gateway`, `Affinity`) that the methods update step by step. Each method is proved equal to a
  function on the whole state; theorems about runs are about that function.
* Times are parameters. Prices, budgets and hash scores are reals; a hash is any function into (0, 1), and
  `ln` is only known to be negative and strictly increasing there.
* Strings are sequences of characters with ASCII classes (`Text`); each regular expression is spelled out as
  a predicate, including Python's `$`, which matches before a final newline.

| file | about |
|---|---|
| `ServingEngines.dfy` | engine args to launch line; the one port of argv, container, probes and Service |
| `ShellScript.dfy`, `RecipeImport.dfy`, `RecipeDraft.dfy`, `RenderedLines.dfy`, `RecipeRoundTrip.dfy`, `DraftValidity.dfy` | live command line to recipe, the round trips, and the validity of every draft |
| `CostSchedule.dfy`, `PriceWorker.dfy`, `PriceRuns.dfy` | price windows, the worker's pass, whole runs |
| `Rendezvous.dfy`, `PrefixAffinity.dfy` | weighted rendezvous hashing and the routing hook |
| `BudgetBoost.dfy` | temporary member budgets |
| `ServingStatus.dfy`, `Reconciler.dfy` | serving status and LiteLLM registration |
| `BenchmarkRuns.dfy` | benchmark runs and their throwaway servings |
| `Membership.dfy` | the copies of a team membership |
| `SsoCache.dfy` | the gateway's token-to-key cache |
| `ManifestDiff.dfy`, `BudgetReset.dfy`, `ValuesMerge.dfy` | side-by-side diff, chunked spend reset, values merge |
| `Text.dfy`, `Wrappers.dfy` | strings and `Option` |

## Where the code and its promises part

Each of these is a lemma below, with the exact condition where there is one.

* `serving_engines.py` says the container port follows the args. An engine-arg value that is itself
  spelled `--port` takes the next flag for a port, and a numeric port 0 passes validation (`0 == False`) but
  has no port: `AcceptedPort` and `DraftIsValid` say exactly when it does, `RogueValueBreaksPort` shows a case.
* A transfer config that is a number, string or list in JSON, neither empty nor zero, ends the import of a pod
  without a role label with an exception instead of a draft: `DraftExistsIff`.
* An engine-arg key may end in a newline, and then does not come back from an import: `FlagsRoundTrip`.
* A vLLM serving whose image mentions SGLang is imported as SGLang: `EngineRecovered`.
* Two hand-set base prices of one model keep the stored default moving for ever: `DisagreementNeverRests`.
* A negative leading slice never settles: `SliceIsStable`.
* A first boost whose answer is lost leaves the boosted budget without a row: `LostFirstBoostBreaks`.
* A reconciler pass that ends uncommitted forgets registrations LiteLLM has: `PassKeepsStep`.
* A pass that creates a benchmark Job and does not commit leaves a run that blocks the worker for good:
  `BenchmarkRuns.StrandsIff`, `BenchmarkRuns.StrandedForGood`.
* A failing expiry pass can leave members enrolled that no pass selects again: `FailedExpiryStrands`,
  `Membership.StrandedForGood`.
* A cache bound of zero still keeps one entry, and a separator inside a token or a team joins two cache
  entries: `ZeroBoundKeepsOne`, `SharesEntryIff`.
* A duration of zero leaves a budget due, and one that ends after the year 9999 clears its members' spend on
  every pass: `StillDueIff`, `BeyondCalendarStaysDue`.
* A stack that overrides only its image tag loses the registry its own values name:
  `TagAloneReplacesRegistry`.

## Model

| member | source | states |
|---|---|---|
| ServingEngines.SplitPort | backend/app/services/serving_engines.py:70-85 | the loop over the flags computes `Split`, trailing `--port` included |
| ServingEngines.SplitRemovesPort | backend/app/services/serving_engines.py:71 | no flag left over is a `--port` in either form |
| ServingEngines.SplitIdempotent | backend/app/services/serving_engines.py:70-85 | splitting what is left changes nothing and finds no port |
| ServingEngines.SplitConcat | backend/app/services/serving_engines.py:226-229 | of two flag lists in a row the second's port wins, the first's only where the second is silent, and the other flags of both stay in order; a first list that ends in a bare `--port` takes the second's first flag for its value |
| ServingEngines.TrailingPort | backend/app/services/serving_engines.py:79-81 | a bare `--port` at the end gives an empty port and leaves the other flags |
| ServingEngines.RenderEngineArgs | backend/app/services/serving_engines.py:208-223 | the loop over the sorted keys computes the specification function `Render` |
| ServingEngines.AcceptedIff | backend/app/services/serving_engines.py:58-67 | exactly which engine args the validation accepts |
| ServingEngines.AcceptedPort | backend/app/services/serving_engines.py:226-238 | an accepted serving listens on the port it declares and passes on all of its other flags if and only if no value is spelled like a port flag, and its own port is no numeric zero or the extra args override it |
| ServingEngines.RogueValueBreaksPort | backend/app/services/serving_engines.py:226-238 | a concrete serving that both validations accept and that has no port |
| ServingEngines.LaunchNamesPortOnce | backend/app/services/serving_engines.py:241-257 | the launch line holds exactly one port token, followed by the serving port, if and only if the model path is no port token; and then reading the line back gives that port |
| ServingEngines.LaunchIs | backend/app/services/serving_engines.py:241-257 | every word of the launch line: only SGLang's has a command and a host, only vLLM's carries the KV-events config, and the serving's own flags come last, without their ports |
| ServingEngines.ContainerPorts | backend/app/services/model_deployment_manifests.py:140-151 | the portal's ports come first, no number or name occurs twice, nothing is invented, and a claim is dropped only for an earlier one it clashes with |
| ServingEngines.BuildManifest | backend/app/services/model_deployment_manifests.py:253-283 | the `--port` read from the launch line equals the container port, every probe port and the Service target, and is the only one, if and only if the model path is no port token; no port number or name occurs twice |
| RecipeImport.ParseFlags | backend/app/services/recipe_import.py:150-209 | the token loop computes the specification function `ParseFrom` |
| RecipeImport.LongFlag | backend/app/services/recipe_import.py:173-196 | the branch for long flags: inline value, following value, bare flag, malformed key |
| RecipeImport.CoerceInt | backend/app/services/recipe_import.py:136-147 | the printed form of every integer is read back as that integer, and starts with a dash if and only if it is negative |
| RecipeImport.FlagsRoundTrip | backend/app/services/recipe_import.py:150-209 | for validated args: rendering then parsing gives back exactly the kept entries, with nothing else and no warning, if and only if every kept key is free of a final newline and every kept value survives (integers, true, numbers that print as such, strings that neither look numeric nor start with a dash) |
| RecipeImport.ParsePersists | backend/app/services/recipe_import.py:193-205 | no warning is taken back, and a value is replaced only with a warning |
| RecipeImport.InlineStores | backend/app/services/recipe_import.py:173-196 | what `--key=value` stores, and with which warnings, whatever the value looks like |
| RecipeImport.SpacedStores | backend/app/services/recipe_import.py:173-196 | `--key` takes the next token if and only if that does not start with a dash or is a number, and else is a bare flag |
| RecipeImport.MalformedKept | backend/app/services/recipe_import.py:173-183 | a long flag without a valid key is kept word for word, alone, with its warnings |
| RecipeImport.ShortKept | backend/app/services/recipe_import.py:197-205 | a short option is kept with the token after it unless that has a dash too |
| RecipeImport.PositionalKept | backend/app/services/recipe_import.py:163-209 | any other token is a positional, and every token after `--` is |
| RecipeImport.NormalizeIs | backend/app/services/recipe_import.py:173-175 | a key is normalised by cutting off the blanks around it, writing capitals small and underscores as dashes, and nothing else |
| RecipeImport.NumberIff | backend/app/services/recipe_import.py:37 | the number pattern, place by place: sign, digits, fraction, exponent |
| RecipeImport.IntIff | backend/app/services/recipe_import.py:136-147 | the integer pattern |
| RecipeImport.ArgKeyIff | backend/app/services/serving_engines.py:42 | the key pattern: lower-case letters, digits and dashes, no dash first, and perhaps one final newline |
| Text.StripIs | backend/app/services/serving_engines.py:89 | stripping leaves the text between the blanks at both ends |
| Text.BlankIff | backend/app/services/serving_engines.py:89 | which ASCII characters are blanks |
| Text.ContainsIff | backend/app/services/recipe_import.py:121-131 | the search for a name in the lower-cased image |
| ShellScript.UnwrapShell | backend/app/services/recipe_import.py:57-87 | the shell unwrapping, error cases included, computes `Unwrap` for any word splitter |
| ShellScript.PiecesParted | backend/app/services/recipe_import.py:73 | a script splits at a separator into the pieces of what is before it and of what is after it |
| ShellScript.OneCommandIff | backend/app/services/recipe_import.py:73 | a script is one command if and only if no `&&`, `||`, `;` or line end stands anywhere in it |
| ShellScript.BlankEndIgnored | backend/app/services/recipe_import.py:72-75 | a script that ends in a separator and blanks unwraps to what it is without them |
| ShellScript.BlankScript | backend/app/services/recipe_import.py:72-87 | a script of blanks launches nothing and is reported as the empty command |
| ShellScript.CutPartsNamed | backend/app/services/recipe_import.py:73-87 | the warnings name every command before the launch, and each dropped assignment by itself |
| ShellScript.LaunchFound | backend/app/services/recipe_import.py:72-87 | however many commands come first, the last one is the launch, without `exec` and variable assignments, and each thing cut off is reported |
| ShellScript.UnwrapOtherwise | backend/app/services/recipe_import.py:57-70 | a line that no shell starts is left as it is; a shell without a script leaves nothing, with one warning |
| ShellScript.UnsplitScript | backend/app/services/recipe_import.py:57-87 | a last command that cannot be split into words leaves nothing and is named in a warning, after those for the commands before it |
| ShellScript.AssignmentIff | backend/app/services/recipe_import.py:34 | the pattern of a variable assignment |
| RecipeDraft.BuildRecipeDraft | backend/app/services/recipe_import.py:406-448 | the entry point computes `DraftOf`, with its exception as no draft; what that is, is said by the rows on detection, `ModelTaken`, `PortTaken` and `AssembledIs` |
| RecipeDraft.FillDraft | backend/app/services/recipe_import.py:385-466 | model, leftovers, prefill/decode with its exception, port, portal flags and the remarks on the pod, in the code's order, give exactly `Finish` |
| RecipeDraft.ModelTaken | backend/app/services/recipe_import.py:212-231 | the model comes from the engine's own flag, else the other engine's, else the positional; and exactly when each of the three warnings is given |
| RecipeDraft.PortTaken | backend/app/services/recipe_import.py:425-434 | the draft's port, the port line and the warning, by whether the line's port is a number in range, the default, or a prefill/decode pool's |
| RecipeDraft.AssembledIs | backend/app/services/recipe_import.py:385-448 | a draft drops exactly the five flags the portal sets itself, keeps every other with its value, and says so of a pool and of dropped positionals |
| RecipeDraft.PodRemarked | backend/app/services/recipe_import.py:392-466 | there is no draft exactly when the role has to be looked up in a transfer config that is neither object, falsy nor broken JSON; else the draft is the line's, with exactly the pod's remarks after its own |
| RenderedLines.DetectsRendered | backend/app/services/recipe_import.py:90-133 | a rendered container is never taken for a shell, and its program prefix is stripped exactly |
| RenderedLines.PythonFound | backend/app/services/recipe_import.py:90-133 | `python`, any version and perhaps `.exe` is taken for a Python interpreter |
| RenderedLines.DetectsModule | backend/app/services/recipe_import.py:90-133 | a vLLM or SGLang module, alone, behind any Python or behind `-m`, gives its own engine and leaves exactly the args |
| RenderedLines.DetectsVllm | backend/app/services/recipe_import.py:90-133 | the `vllm` program with `serve`, with and without a model behind it, and without `serve` |
| RenderedLines.DetectsBare | backend/app/services/recipe_import.py:119-127 | flags without a program: the engine of the image, all of the flags, and a warning exactly when the image names no engine |
| RenderedLines.DetectsUnknown | backend/app/services/recipe_import.py:119-133 | any other program: the engine of the image, the flags after it, and a warning that names what was skipped |
| RenderedLines.DetectsPythonAlone | backend/app/services/recipe_import.py:119-133 | an interpreter with nothing to run |
| RecipeRoundTrip.DraftExistsIff | backend/app/services/recipe_import.py:392-403 | an import gives a draft, and no exception, if and only if there is a role label, or no transfer config, or that config is not JSON, falsy or an object |
| RecipeRoundTrip.ImportRecovers | backend/app/services/recipe_import.py:406-466 | importing a rendered serving always gives a draft, with engine, image, model path, own args and port recovered and exactly the remarks that an image without an engine's name, a missing image and the pod call for |
| RecipeRoundTrip.ModuleImports | backend/app/services/recipe_import.py:406-466 | a launch through either engine's module, in each of its spellings, imports to exactly the serving's engine, model, args and port, whatever the image is called |
| RecipeRoundTrip.VllmModuleImports | backend/app/services/recipe_import.py:108-109 | the same for vLLM with both module names written out: the draft exists, is vLLM's, warns of nothing about the line and launches the same line again |
| RecipeRoundTrip.UnknownProgramImports | backend/app/services/recipe_import.py:119-133 | an unknown program in front: the engine is the image's, and if that is right everything else comes back with one warning that names what was skipped |
| RecipeRoundTrip.VllmProgramImports | backend/app/services/recipe_import.py:110-118 | `vllm` without `serve`: everything comes back as vLLM's, with one warning that names the line |
| RecipeRoundTrip.ServeFlagsImport | backend/app/services/recipe_import.py:110-118 | `vllm serve` with the model as a flag imports to the same serving |
| RecipeRoundTrip.ExportImportExport | backend/app/services/recipe_import.py:406-448 | export, import, export gives a draft, the launch line and the serving port one started from |
| RecipeRoundTrip.EngineRecovered | backend/app/services/recipe_import.py:119-127 | where there is a draft, the engine comes back if and only if it is SGLang or the image does not mention SGLang |
| DraftValidity.ParseSane | backend/app/services/recipe_import.py:163-209 | whatever the tokens, the parser yields only valid keys and no null value, and leaves no port flag among what it could not parse |
| DraftValidity.DraftIsValid | backend/app/services/recipe_import.py:406-448 | every draft passes both validations with a port in range; the serving deployed from it listens on that port and gets all of its other flags if and only if no recovered value is spelled like a port flag |
| RecipeRoundTrip.ServeArgvImports | backend/app/services/serving_engines.py:260-271 | the argv of a self-serving job imports to the same serving, whatever the image is called |
| RenderedLines.ParseCarries | backend/app/services/recipe_import.py:150-209 | earlier warnings are carried through the parser and influence nothing |
| RecipeRoundTrip.WrappedImportsSame | backend/app/services/recipe_import.py:57-87 | a launch inside a shell script has a draft if and only if the bare one has, and the same one, with the unwrapping's warnings in front |
| RecipeRoundTrip.WrappedExportImport | backend/app/services/recipe_import.py:57-87 | export, wrap as the last command of a script, import: same launch line and port, and the exact warnings |
| CostSchedule.MatchesWindow | backend/app/jobs/apply_cost_schedule.py:38-64 | a valid rule matches an hour of the week if and only if a listed day's start lies less than a window before it, modulo 168 |
| CostSchedule.WeeklyHours | backend/app/jobs/apply_cost_schedule.py:38-64 | a valid rule covers exactly days times window length hours of the week, Sunday-to-Monday spans included |
| CostSchedule.PickIsFirstHighest | backend/app/jobs/apply_cost_schedule.py:67-73 | the rule picked is the first of the highest-priority ones that are enabled and match, and none is picked only if none is enabled and matches |
| PriceWorker.Worker.ApplyCostSchedule | backend/app/jobs/apply_cost_schedule.py:124-243 | the pass, model by model in any order, has the effect of `Pass` on all deployments and defaults; what that is, is said by the four rows after `ApplyToModel` |
| PriceWorker.Worker.ApplyToModel | backend/app/jobs/apply_cost_schedule.py:148-222 | one model's deployments: pushes, failed pushes, and the last adopted base price |
| PriceRuns.RuleApplied | backend/app/jobs/apply_cost_schedule.py:129-143 | with a rule in force, whatever the catalog holds, every database deployment whose update does not fail ends at the rule's input and output price, and at its cache-read price where it sets one |
| PriceRuns.LeftAlone | backend/app/jobs/apply_cost_schedule.py:129-160 | no rule and no default, a deployment outside the database, or a failed update: the price stays |
| PriceRuns.DefaultApplied | backend/app/jobs/apply_cost_schedule.py:185-222 | without a rule the default is restored part by part, except over a hand-set price, and not at all if it has neither an input nor an output price |
| PriceRuns.CatalogAfter | backend/app/jobs/apply_cost_schedule.py:225-237 | the stored default changes if and only if some price is to be adopted, and then to the last such one |
| PriceRuns.PassKeeps | backend/app/jobs/apply_cost_schedule.py:124-243 | any pass with any failures keeps every deployment at the default or at a rule's price and leaves the defaults alone |
| PriceRuns.RunKeeps | backend/app/jobs/apply_cost_schedule.py:124-243 | the same over every run of passes at any times |
| PriceRuns.RunGoesOn | backend/app/jobs/apply_cost_schedule.py:124-243 | a run can be cut anywhere, and a run of one tick is that pass |
| PriceRuns.CleanPassSettles | backend/app/jobs/apply_cost_schedule.py:185-222 | a pass without failures after any run leaves every deployment at the picked rule's price or the default, the cache-read price included where one is set, and a repeat has nothing to do |
| PriceRuns.DisagreementNeverRests | backend/app/jobs/apply_cost_schedule.py:225-237 | with two different hand-set prices every pass without an active rule changes the stored default |
| PriceRuns.DefaultRestsIffAgreed | backend/app/jobs/apply_cost_schedule.py:185-192 | with hand-set prices only, the default rests after one pass if and only if the deployments agree |
| Rendezvous.SelectDeployment | deploy/litellm-callbacks/prefix_affinity_check.py:151-173 | the loop returns the first highest-scoring deployment that has an id |
| Rendezvous.WeightIs | deploy/litellm-callbacks/prefix_affinity_check.py:135-148 | the weight is the first of the three capacities that is a positive number, or one |
| Rendezvous.OutscoresIff | deploy/litellm-callbacks/prefix_affinity_check.py:151-173 | which of two deployments scores higher, in terms of weights and log distances alone |
| Rendezvous.PickWins | deploy/litellm-callbacks/prefix_affinity_check.py:151-173 | an index is picked if and only if it holds the first maximal score, and nothing is picked only when nothing has an id |
| Rendezvous.DropMovesOnlyItsKeys | deploy/litellm-callbacks/prefix_affinity_check.py:151-173 | dropping deployments keeps every key whose pick stays, ties included |
| Rendezvous.AddMovesOnlyToIt | deploy/litellm-callbacks/prefix_affinity_check.py:151-173 | adding a deployment moves a key to it or nowhere |
| Rendezvous.EqualWeightsArePlain | deploy/litellm-callbacks/prefix_affinity_check.py:135-173 | equal weights pick what plain highest-hash rendezvous picks |
| Rendezvous.RaisedWeightOnlyAttracts | deploy/litellm-callbacks/prefix_affinity_check.py:135-173 | raising one weight never takes a key from its deployment and moves keys only to it |
| PrefixAffinity.MarkerPrefixIsStable | deploy/litellm-callbacks/prefix_affinity_check.py:65-86 | once a conversation holds a marker, more messages never change its prefix |
| PrefixAffinity.PrefixHolds | deploy/litellm-callbacks/prefix_affinity_check.py:65-86 | the prefix, by index: every message before the first marked one, then that one whole if the mark is on it, else with its blocks up to and including the first marked one |
| PrefixAffinity.NoMarkerNoPrefix | deploy/litellm-callbacks/prefix_affinity_check.py:65-86 | without a marker the prefix is empty |
| PrefixAffinity.SliceHolds | deploy/litellm-callbacks/prefix_affinity_check.py:108-110 | the leading slice, by index, for every slice length |
| PrefixAffinity.SliceIsStable | deploy/litellm-callbacks/prefix_affinity_check.py:108-110 | exactly when a leading slice survives appending, for every slice length, negative ones included |
| PrefixAffinity.Affinity.ComputePrefixKey | deploy/litellm-callbacks/prefix_affinity_check.py:95-132 | the memoised key is the unmemoised one (which `KeyIff` pins), and the memo keeps within its bound and holds only true gate results |
| PrefixAffinity.KeyIff | deploy/litellm-callbacks/prefix_affinity_check.py:95-132 | there is a key if and only if the strategy finds a nonempty prefix of at least the configured tokens, and two conversations of a model share a key if and only if they share that prefix |
| PrefixAffinity.SaturatedIff | deploy/litellm-callbacks/prefix_affinity_check.py:185-197 | a deployment is full if and only if the counters can be read and either has reached its integer limit |
| PrefixAffinity.DropSaturated | deploy/litellm-callbacks/prefix_affinity_check.py:228-255 | the survivors are the unsaturated deployments, in order; all of them when the counters cannot be read |
| PrefixAffinity.Affinity.FilterDeployments | deploy/litellm-callbacks/prefix_affinity_check.py:301-346 | the hook routes as `Decide` says, for every list, counters and cached deployment |
| PrefixAffinity.UntouchedIff | deploy/litellm-callbacks/prefix_affinity_check.py:301-346 | a request is left to the router if and only if there is no choice, the model is out of scope, there is no key, or nothing with an id is in scope and below its limit |
| PrefixAffinity.PinIsUsable | deploy/litellm-callbacks/prefix_affinity_check.py:301-346 | a pin is healthy, in scope and unsaturated, and is the cached one exactly when that is still usable |
| PrefixAffinity.HashedIsPinned | deploy/litellm-callbacks/prefix_affinity_check.py:301-346 | the hashed pin is the rendezvous pick among the usable deployments, and there is none exactly when no such pick exists |
| PrefixAffinity.PinSurvivesOthersLeaving | deploy/litellm-callbacks/prefix_affinity_check.py:228-255 | a hashed pin stays while it is healthy and usable, whatever else leaves or fills up |
| BudgetBoost.Boosts.ApplyBoost | backend/app/services/member_budget_boost.py:89-155 | boost and re-boost with a LiteLLM call that may fail: whole new state and outcome, bad requests and gateway errors included |
| BudgetBoost.Boosts.CancelBoost | backend/app/api/teams.py:963-996 | the snapshot is restored and the row cancelled, or nothing changes when LiteLLM refuses |
| BudgetBoost.EffectiveIs | backend/app/services/member_budget_boost.py:39-59 | the effective budget: the member's own, else the team's default |
| BudgetBoost.AppliedBoost | backend/app/services/member_budget_boost.py:89-155 | a confirmed boost takes the new amount and the new end; a running one keeps its snapshot, a first one takes the effective budget from before; no other row changes |
| BudgetBoost.RefusedBoost | backend/app/services/member_budget_boost.py:89-155 | a request refused by the portal or by LiteLLM changes nothing |
| BudgetBoost.CancelledBoost | backend/app/api/teams.py:963-996 | a confirmed cancel gives the snapshot back and ends only that boost; a refused one changes nothing |
| BudgetBoost.TickEndsIff | backend/app/jobs/expire_budget_boosts.py:33-66 | under any answers, a pass ends exactly the active rows whose end has come and whose member has left or is confirmed restored |
| BudgetBoost.RestoredByTick | backend/app/jobs/expire_budget_boosts.py:33-66 | what becomes of the budgets when a due boost is visited |
| BudgetBoost.RefusedStaysDue | backend/app/jobs/expire_budget_boosts.py:33-66 | a refused restore changes nothing, so the boost is tried again |
| BudgetBoost.Boosts.RevertExpired | backend/app/jobs/expire_budget_boosts.py:33-66 | the expiry loop has the effect of `Expire` and counts what it reverted |
| BudgetBoost.CleanTickEndsAll | backend/app/jobs/expire_budget_boosts.py:33-66 | a pass that LiteLLM answers leaves no due boost active and touches no row it did not reach |
| BudgetBoost.RunIsFaithful | backend/app/services/member_budget_boost.py:39-155 | over every run that loses no answer to a first boost: at most one active boost a member, its snapshot is the effective budget from before, and that budget is back whenever none is active |
| BudgetBoost.RunGoesOn | backend/app/services/member_budget_boost.py:89-155 | a run can be cut anywhere, and a run of one event is that step |
| BudgetBoost.LostFirstBoostBreaks | backend/app/services/member_budget_boost.py:149-152 | exactly when a lost answer to a first boost breaks that promise |
| ServingStatus.PdReadyIffBothServe | backend/app/services/pd_serving.py:796-821 | a pair is Ready if and only if both pools are there and each has all pods of the wanted generation up and no old one left |
| ServingStatus.ClassifyIs | backend/app/services/deployment_status.py:8-54 | every status, and exactly when it is given |
| ServingStatus.DerivePdIs | backend/app/services/pd_serving.py:796-821 | the status of a pair, from those of its two pools |
| ServingStatus.AnyDeadlineIff | backend/app/services/deployment_status.py:8-54 | the deadline scan over the conditions |
| ServingStatus.AnyReplicaFailureIff | backend/app/services/deployment_status.py:8-54 | the replica-failure scan over the conditions |
| Reconciler.ReconcilePd | backend/app/jobs/reconcile_deployments.py:288-367 | one prefill/decode row: new status, router mark, events and registration, and whether LiteLLM made an entry |
| Reconciler.ReconcileSingle | backend/app/jobs/reconcile_deployments.py:196-275 | the same for an aggregated row, missing Deployments included |
| Reconciler.SingleRegistersIff | backend/app/jobs/reconcile_deployments.py:196-275 | an aggregated serving gets a new id if and only if its Deployment is there and serves, it was not Ready, no id was held and LiteLLM answered Created; a failed or lost answer is the last event |
| Reconciler.SingleAttemptedAtOnce | backend/app/jobs/reconcile_deployments.py:196-275 | over every run, an aggregated row that turns Ready unregistered is attempted in that very pass, and no Ready row without an id was missed |
| Reconciler.PairRegistersIff | backend/app/jobs/reconcile_deployments.py:288-367 | the same for a pair and its router: when it is attempted, what it holds afterwards, and how it is marked |
| Reconciler.StatusSeen | backend/app/jobs/reconcile_deployments.py:196-275 | the status is what is seen, missing Deployments included, and each change is recorded, with nothing else but the attempt |
| Reconciler.RegistrationNotLost | backend/app/jobs/reconcile_deployments.py:288-367 | over every run of passes, edits (which may change the wanted pods) and manual registrations: registration is attempted only with no id held, both pools serving and the router Synced and Healthy, and a waiting row is always marked, so the first pass that sees the router up attempts it |
| Reconciler.EventsReplay | backend/app/jobs/reconcile_deployments.py:329-337 | between edits the recorded transitions chain and replay to the current status |
| Reconciler.RunGoesOn | backend/app/jobs/reconcile_deployments.py:169-285 | a row's run can be cut anywhere, and a run of one step is that step |
| Reconciler.EditFollowedUp | backend/app/api/model_deployments.py:789-845 | after an edit the next pass judges the row by the new pods; an aggregated serving whose id was dropped is registered again when it serves, a kept id stays |
| Reconciler.ManualIdStays | backend/app/api/model_deployments.py:848-882 | an id given by hand to a Ready serving stays through the passes; one that is not Ready takes none |
| Reconciler.Reconciliation.ReconcileOnce | backend/app/jobs/reconcile_deployments.py:169-285 | a pass over all rows commits all of its work or none, be it that a row ends it or that the commit fails, while LiteLLM's entries stay |
| Reconciler.PassDoes | backend/app/jobs/reconcile_deployments.py:169-285 | exactly what a pass leaves: each row as observed if it gets through and commits, else every row as before; and one more LiteLLM entry for each row it asked for and that was not refused |
| Reconciler.PassKeepsStep | backend/app/jobs/reconcile_deployments.py:169-285 | a pass registers nothing twice and forgets nothing if and only if it creates no entry, or it commits and each creation was answered |
| Reconciler.CommittedRunsKeepStep | backend/app/jobs/reconcile_deployments.py:78-92 | over every run of committed passes without lost answers LiteLLM has one entry for each row with an id and none else |
| Reconciler.PassesGoOn | backend/app/jobs/reconcile_deployments.py:169-285 | a run of passes can be cut anywhere, and a run of one is that pass |
| BenchmarkRuns.Benchmarks.TeardownServing | backend/app/jobs/reconcile_benchmarks.py:92-104 | the serving is marked torn down only when its deletion succeeded or it has none |
| BenchmarkRuns.Benchmarks.DriveOne | backend/app/jobs/reconcile_benchmarks.py:107-207 | one run's step: status, Job creation, teardown, and where an exception ends the pass |
| BenchmarkRuns.Benchmarks.ReconcileOnce | backend/app/jobs/reconcile_benchmarks.py:210-253 | driving and sweeping all rows; a pass that aborts or whose commit fails changes no row but keeps what it did to the cluster |
| BenchmarkRuns.Benchmarks.CancelRun | backend/app/api/benchmarks.py:902-941 | cancelling under every answer of the cluster |
| BenchmarkRuns.CancelLeavesNothing | backend/app/api/benchmarks.py:902-941 | with a cluster that deletes, cancelling leaves neither the Job nor the serving and touches nothing else |
| BenchmarkRuns.CancelDoes | backend/app/api/benchmarks.py:902-941 | a cancel under every answer of the cluster: status, teardown mark, Job and serving |
| BenchmarkRuns.HistoryKeeps | backend/app/jobs/reconcile_benchmarks.py:92-253 | over every history of creations, passes and cancels: ranks never rise, terminal is final, and every serving in the cluster is named by a row that will still tear it down |
| BenchmarkRuns.HistoryKeepsApart | backend/app/api/benchmarks.py:572-624 | over every history no two runs have the same Job name |
| BenchmarkRuns.SweepReaches | backend/app/jobs/reconcile_benchmarks.py:236-247 | the sweep finds every ended run that still holds a serving and, if the deletion succeeds, it is gone |
| BenchmarkRuns.JobsOnlyForReady | backend/app/jobs/reconcile_benchmarks.py:107-147 | a pass creates a Job only for a provisioning run whose serving it saw ready |
| BenchmarkRuns.PassOutcome | backend/app/jobs/reconcile_benchmarks.py:162-207 | a pass that commits leaves a run with a Job succeeded, failed or running exactly as its Job was seen, whatever happens to the other runs |
| BenchmarkRuns.ProvisioningOutcome | backend/app/jobs/reconcile_benchmarks.py:107-159 | a provisioning run after a pass that commits: pending with its Job if its serving was seen ready, failed if it has none or is overdue, else still provisioning |
| BenchmarkRuns.CreatedRunFollows | backend/app/api/benchmarks.py:572-624 | a run just created and then a pass that commits: its status as its Job or its serving was seen, and no earlier run changed by the creation |
| BenchmarkRuns.PassSparesRunning | backend/app/jobs/reconcile_benchmarks.py:210-253 | a pass that commits takes no serving away except from a run that has ended and was not torn down before |
| BenchmarkRuns.TeardownIs | backend/app/jobs/reconcile_benchmarks.py:92-104 | a teardown is noted if and only if the deletion is confirmed or there is nothing to delete |
| BenchmarkRuns.EndedIsTornDown | backend/app/jobs/reconcile_benchmarks.py:162-207 | the serving of a run that ends goes in the very turn that ends it |
| BenchmarkRuns.StrandedJobBlocks | backend/app/jobs/reconcile_benchmarks.py:145-147 | a run still provisioning whose Job is there makes every pass that sees its serving ready commit nothing |
| BenchmarkRuns.CommitsIff | backend/app/jobs/reconcile_benchmarks.py:213-250 | a pass commits if and only if its commit goes through and no row, judged by itself in the state before the pass, ends it; otherwise no row changes |
| BenchmarkRuns.AbortsWhen | backend/app/jobs/reconcile_benchmarks.py:107-207 | which answers at a row end the pass, and that it leaves ended runs to the sweep |
| BenchmarkRuns.StrandsIff | backend/app/jobs/reconcile_benchmarks.py:145-147 | a pass leaves such a run behind if and only if it creates the run's Job and then does not commit |
| BenchmarkRuns.StrandedForGood | backend/app/jobs/reconcile_benchmarks.py:210-253 | no number of such passes changes any row |
| BenchmarkRuns.StrandedIsReached | backend/app/jobs/reconcile_benchmarks.py:210-250 | two runs and one pass lead to such a run, from the empty state |
| Membership.Memberships.ApproveJoin | backend/app/api/team_requests.py:284-377 | only a pending request is approved, by an admin of the team or a super user, and only once; then the user is in the team by every copy there is and no other membership has changed anywhere; a refusal changes nothing |
| Membership.ApprovalOutcome | backend/app/api/team_requests.py:284-377 | exactly when an approval is refused, and why |
| Membership.ApprovalKeepsStep | backend/app/api/team_requests.py:304-377 | approval keeps the copies in step if and only if the team exists and the user has a LiteLLM row |
| Membership.Memberships.AssignUser | backend/app/api/admin_users.py:473-594 | assignment, refusals and the admin list included |
| Membership.AssignOutcome | backend/app/api/admin_users.py:473-594 | exactly when an assignment is refused, and why |
| Membership.AssignDoes | backend/app/api/admin_users.py:473-594 | one that is done enrols the user, and makes an admin exactly of one assigned as such |
| Membership.EnrolNotes | backend/app/api/admin_users.py:473-594 | enrolment notes a newcomer under the given role, touches no other note and no admin list, and dates the membership |
| Membership.AssignmentKeepsStep | backend/app/api/admin_users.py:473-594 | assignment keeps the copies in step if and only if it is refused or the user has a LiteLLM row |
| Membership.Memberships.ChangeMemberRole | backend/app/api/teams.py:821-882 | promotion and demotion with every refusal, unknown roles and the last-admin rule included; what they do is said by the two rows below |
| Membership.RoleChangeDoes | backend/app/api/teams.py:821-882 | a change that is done makes the user an admin if and only if promoted, and a member if not; every other user's adminship and membership, and every other team, row, list and term, stays; any other outcome changes nothing |
| Membership.DemotedIsMember | backend/app/api/teams.py:860-879 | whoever is demoted is a member afterwards, whatever state the copies were in |
| Membership.RoleChangeOutcome | backend/app/api/teams.py:821-859 | exactly when each outcome is given: a demotion by a non-super user is refused if and only if it would leave the team without an admin |
| Membership.RoleChangeKeepsStep | backend/app/api/teams.py:821-882 | any role change keeps the copies in step and the admins among the members |
| Membership.Memberships.ExpireMemberships | backend/app/jobs/expire_memberships.py:38-125 | the expiry loop over two transactions, with failing statements and commits on either side: the whole state and both counts |
| Membership.ExpelsOnly | backend/app/jobs/expire_memberships.py:38-125 | expulsion takes exactly the listed memberships from every copy and from the admins |
| Membership.ExpiryOutcome | backend/app/jobs/expire_memberships.py:38-125 | under any faults: which memberships are gone, when LiteLLM's tables are as before, and exactly which terms are marked |
| Membership.ExpiryKeepsStep | backend/app/jobs/expire_memberships.py:38-125 | expiry keeps the copies in step whatever fails, and when LiteLLM's transaction commits the members are gone from all of them |
| Membership.FailedExpiryStrands | backend/app/jobs/expire_memberships.py:38-125 | a selected member stays enrolled with a row that says expired if and only if one of LiteLLM's statements fails at a later row and the portal's marks up to there are committed |
| Membership.StrandedForGood | backend/app/jobs/expire_memberships.py:23-30 | such a member stays enrolled through every run of passes, since they select active rows only |
| Membership.RunsKeepStep | backend/app/api/team_requests.py:304-377 | every interleaving of the four operations on existing users and teams keeps members, roles, rows, lists and admins in step and duplicate-free |
| Membership.RunGoesOn | backend/app/api/team_requests.py:304-377 | a run can be cut anywhere, and a run of one event is that step |
| SsoCache.FoundAfterKeep | gateway/app/sso.py:87-122 | what a request finds after an answer: the key just granted until its lifetime is over, and every other entry as before unless the answer emptied the cache |
| SsoCache.Gateway.PruneCache | gateway/app/sso.py:72-78 | pruning leaves a cache below its bound as it is, else drops what ran out, else everything |
| SsoCache.PruneIs | gateway/app/sso.py:72-78 | exactly which entries a pruning keeps, unchanged |
| SsoCache.LifetimeIs | gateway/app/sso.py:116-122 | how long a key is kept: the time to live, cut at the token's own expiry |
| SsoCache.Gateway.Finish | gateway/app/sso.py:111-123 | what an answer puts into the cache, and for how long |
| SsoCache.CacheIsFaithful | gateway/app/sso.py:72-123 | over every interleaving of requests and answers: the bound holds, and every key served was granted for the same digest text, less than the time to live ago and strictly before the token's own expiry |
| SsoCache.GrantedIsServed | gateway/app/sso.py:81-123 | a token the cache does not know waits for the backend, and the key it is granted serves the next request within the lifetime and no later one |
| SsoCache.ServedToItsOwner | gateway/app/sso.py:72-123 | over every interleaving of requests whose tokens hold no separator, a key from the cache goes only to the token and team it was granted for, in time |
| SsoCache.JoinedTellsApart | gateway/app/sso.py:67-69 | for tokens without the separator the digest text fixes token and team |
| SsoCache.SharesEntryIff | gateway/app/sso.py:67-69 | a pair of token and team shares its entry with another pair if and only if the token or the team holds the separator |
| SsoCache.ZeroBoundKeepsOne | gateway/app/sso.py:72-78 | a bound of zero still takes one entry |
| ManifestDiff.SideBySide | backend/app/services/manifest_diff.py:27-44 | for any tiling opcodes: the left cells are exactly the numbered lines of one text and the right cells of the other, every row is what its op says, and the changed rows are counted by the unequal blocks |
| ManifestDiff.UnchangedMeansSame | backend/app/services/manifest_diff.py:51-65 | no changed row means equal texts, line for line |
| ManifestDiff.PairKeys | backend/app/services/manifest_diff.py:56-58 | the current keys in order, then each proposed-only key once, in theirs |
| ManifestDiff.LastOfKeyWins | backend/app/services/manifest_diff.py:56-59 | of several manifests under one key the last is compared |
| ManifestDiff.ManifestDiffs | backend/app/services/manifest_diff.py:51-65 | one entry for each such key, showing both versions in full, with a changed count that is zero only for equal ones |
| BudgetReset.DurationReadBack | backend/app/api/teams.py:96-110 | a written-out number of days, hours or months in either case is read as that duration, or as too long |
| BudgetReset.ReadableIff | backend/app/api/teams.py:96-110 | a text is read as a duration if and only if, stripped and in lower case, it is digits and one of the three units |
| BudgetReset.Tables.ClearChunk | backend/app/jobs/reset_team_membership_budget.py:36-47 | one update clears as many of the budget's spenders as the limit allows, any of them, and nothing else |
| BudgetReset.Tables.ResetOne | backend/app/jobs/reset_team_membership_budget.py:28-64 | the chunk loop ends; on success every row of the budget is at zero, all others are unchanged, the total is the number of spenders before and the next time is written; a failure leaves the budget due |
| BudgetReset.Tables.ResetPass | backend/app/jobs/reset_team_membership_budget.py:67-135 | a pass with any failing statements: rows, budgets and the three counts; without failures, the exact state |
| BudgetReset.QuietPassDoes | backend/app/jobs/reset_team_membership_budget.py:28-64 | a pass without failures: exactly which spends are zero and which next times are written |
| BudgetReset.RenewsIff | backend/app/jobs/reset_team_membership_budget.py:78-121 | exactly which budgets such a pass clears and which it rolls |
| BudgetReset.StillDueIff | backend/app/jobs/reset_team_membership_budget.py:81-89 | after a pass without failures a budget is off the list if and only if its duration can be read, is positive and ends before the calendar does |
| BudgetReset.SecondPassIsIdle | backend/app/jobs/reset_team_membership_budget.py:67-135 | with such durations a second pass at the same time does nothing |
| BudgetReset.RetryCompletes | backend/app/jobs/reset_team_membership_budget.py:122-129 | whatever failed, the next pass without failures brings every spend that was due to zero |
| BudgetReset.BeyondCalendarStaysDue | backend/app/jobs/reset_team_membership_budget.py:55-63 | a period that ends beyond the calendar is never written, so its members' spend is cleared again on every later pass |
| ValuesMerge.DeepMerge | backend/app/services/llmd_manifests.py:29-37 | the recursive merge over the override's keys in any order computes `Merged` |
| ValuesMerge.MergedAt | backend/app/services/llmd_manifests.py:29-37 | what the merge holds at every path, in terms of what the two sides hold there |
| ValuesMerge.OverrideLeafWins | backend/app/services/llmd_manifests.py:29-37 | every non-map leaf of the override is found at its path |
| ValuesMerge.BaseLeafSurvivesIff | backend/app/services/llmd_manifests.py:29-37 | exactly when a leaf of the base survives |
| ValuesMerge.MergedTwice | backend/app/services/llmd_manifests.py:29-37 | merging the same override twice is merging it once |
| ValuesMerge.MergeOrderMatters | backend/app/services/llmd_manifests.py:347-349 | the merge does not associate |
| ValuesMerge.BuildValues | backend/app/services/llmd_manifests.py:338-350 | what is sent holds the explicit image, else the user's, else the default exactly where the user says nothing, and every leaf of the user's that no explicit image replaces |
| ValuesMerge.ImageSent | backend/app/services/llmd_manifests.py:338-350 | which image is sent: the explicit one, else the user's, else the default exactly where the user says nothing |
| ValuesMerge.SetPartsSent | backend/app/services/llmd_stacks.py:133-143 | a stack that sets any of registry, repository and tag sends each part it sets, and the settings' for the others |
| ValuesMerge.NothingSetSent | backend/app/services/llmd_stacks.py:133-143 | one that sets none sends every leaf of its own values as it is |
| ValuesMerge.UserLeafSentIff | backend/app/services/llmd_manifests.py:338-350 | exactly which of the user's leaves are sent |
| ValuesMerge.TagAloneReplacesRegistry | backend/app/services/llmd_stacks.py:133-143 | a stack that sets only the tag sends the registry of the settings |

## Left out

- ServingEngines.BuildManifest: only the ports of the manifests; the JSON body of KV events is a given text and the ports it claims are a given list.
- RecipeDraft.BuildRecipeDraft: what is read from resources, env, volumes, probes and scheduling is not modelled, and its remarks are given; the JSON reader is a parameter; extra ports and the role detail of a prefill/decode warning are left out.
- RecipeImport.FlagsRoundTrip: a float is named by its printed text, so 1.50 and 1.5 are kept apart; digits, letters and blanks are ASCII; the interpreter's limit on the length of integer text is not modelled.
- ShellScript.UnwrapShell: the shell-word splitter is a parameter.
- PriceRuns.RunKeeps: rules are fixed and the claim is about the input and output prices; a null cache-read price deliberately leaves the stored one. The pass's counters and warnings, and servings configured outside LiteLLM's database, are not modelled.
- PrefixAffinity.Affinity.FilterDeployments: the sticky cache's time to live, the stamped metadata and the provider lookup are inputs; the digest of a serialised prefix is taken to be injective; one configuration is fixed.
- BudgetBoost.RunIsFaithful: LiteLLM refuses non-members; budgets edited elsewhere, memberships created anew and the database's own uniqueness error are excluded.
- Reconciler.ReconcilePd: status texts, ready counts, cluster addresses, alerts and catalog rows are not modelled.
- Reconciler.EventsReplay: an edit through the API sets a status without an event, so the claim is between edits.
- BenchmarkRuns.HistoryKeeps: deleting a run's row is excluded, and a run and its serving are created together; log parsing, results and messages are not modelled.
- Membership.RunsKeepStep: requests for a budget, the membership's budget, the keys deleted on expiry and the query that selects expired rows are inputs or left out.
- SsoCache.CacheIsFaithful: the refusals' HTTP codes are one `Denied`; the wall clock runs at a fixed offset from the monotonic one.
- ManifestDiff.ManifestDiffs: dumping to YAML and splitting into lines are given, and the matcher is any function whose opcodes tile both texts.
- BudgetReset.Tables.ResetPass: no other writer runs in between, and times are whole seconds.
- ValuesMerge.BuildValues: lists, numbers and nulls are leaves named by a text.
- Interleavings inside one API call or one worker step, except in the SSO cache.
- Usage and budget listings, announcements, catalog editing, storages, the MCP servers and the frontend: queries and serialisation with easy claims only.
- Cryptography, sessions and token parsing.
