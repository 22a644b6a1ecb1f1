# Verification of provider-rancher

A Dafny model of the two parts of the provider that carry state, and proofs about them.

**The deep-copy tree of the RKE configuration.** `GoMemory` is an explicit model of the memory that Go values share:
a value is a scalar, nil, a reference or a struct of values; a reference leads to a variable inside a cell, to a stretch
of a cell's slots, or to the entries of a map. `View` follows every reference and gives what a value looks like, with nil
distinct from empty. `DeepCopy.Memory` has a memory as its state and one method for each generated `DeepCopyInto`, with
the same steps in the same order: the shallow copy, after which every container is shared, and then the code for each
field, with loops over slices and over map keys in any order and nested calls. `Copies` says what a deep copy is (the
same view, typed, all cells new, no cell reached twice) and proves what one field, one slot and one entry contribute.
`Independence` is what the copies are for.

**The reconcile protocol.** `World` is the Rancher server, the secrets of the Kubernetes API, the log of requests and a
script: what the world will have become before each request, whether a read of a secret fails, and whether the request
is answered, refused, or accepted with its answer lost. When the script has run out the world is calm. The lemmas are
about every script, so about every interleaving with faults and other actors. `ClusterSpec` gives Observe, Create,
Delete, a reconcile and a run as functions; `ClusterController` is the code in its own form, with the resource and the
world changed in place, proved equal to them. `Registry` has the abstract machine keyed by name that the cluster and
the node template controllers (`TemplateSpec`, `TemplateController`) are both shown to refine, and `Interleaving` lets
any number of resources run against one server and one store of secrets.

What the environment may do to a resource's registry is `Registry.Rely`: anything except to add entries of that name, to
reuse an id or to make the listing inconsistent. A change that breaks this is ignored. `Registry.OthersMayRely` and
`Interleaving` discharge it: the controllers of other resources do nothing else, if and only if none of them posts its
cluster under this resource's name (`Interleaving.SingleTogetherExactly`). Likewise nobody else is expected to touch the
resource's own kubeconfig secret (`World.SecretsRely`, discharged by `SecretIsolation.RunAside`).

Convergence is bounded by what goes wrong, counted over the run: faults (a request that does not simply succeed, a
failing read, templates that do not resolve the references), delays (listings that show the cluster not yet active) and
removals of the cluster by others. The length of the script does not enter. The goal, "exists, Available, secret present",
is about the cluster: its node pools may be missing all the same (see below).

Boundaries the code draws, each stated as an if-and-only-if rather than assumed away:

- Observe looks for the resource's name and Create posts `RKE.Name`. Single creation holds exactly when they are equal
  (`Lanes.SingleCreationExactly`, `TemplateRuns.SingleTemplateExactly`).
- The secret is created in `default` when the namespace is empty and looked for under the empty namespace. Then every
  Observe of an active cluster asks for another kubeconfig and, once the secret is there, fails, so the resource cannot
  be deleted either (`NoNamespace.SecondFails`, `NoNamespace.StaysExactly`, `NoNamespace.DeletesExactly`).
- A read of the secret that fails for another reason counts as absence, so the secret can be overwritten
  (`SecretRuns.PresentSecret` has the exact condition).
- A cluster that is removed and made again keeps the kubeconfig of the old one (`SecretRuns.CurrentExactly`).
- The template lookup takes the first element of an empty answer (`CreateProperties.PanicsExactly`).
- `DeepCopyInto` with out == in empties maps (`DeepCopy.Memory.DeepCopyRKENodePoolOntoItself`).
- A Create requests all of its node pools exactly if every reference is found, the creation is answered, and so is every
  post of a pool but the last (`CreateProperties.CreatePostsAllExactly`). Pools left out are never posted later, so that is
  also exactly when a converged cluster has its pools (`PoolRuns.RunPoolsExactly`, `PoolConvergence.GoalPoolsExactly`); a
  creation whose answer is lost leaves a converged cluster without any (`PoolConvergence.Stranded`).

`dafny verify dfyconfig.toml` checks the project.

## Model

| member | source | states |
|---|---|---|
| `DeepCopy.Memory.DeepCopy` | apis/rke1/v1alpha1/zz_generated.deepcopy.go:1997-2004 | nil gives nil; otherwise a new variable whose whole graph is new, is a tree, and looks exactly as the source did, for every struct type and whatever its pointers, slices and maps share: pointers to slice elements and to fields, and slices that overlap in one array, among them; no older cell is changed |
| `DeepCopy.Memory.DeepCopyInto` | apis/rke1/v1alpha1/zz_generated.deepcopy.go:1938-1994 | for two variables neither of which is inside the other, two fields of one struct among them, and for each of the 42 structs: afterwards *out is a deep copy (equal view, nil apart from empty, all cells new, no cell reached twice), whatever *out held before, and nothing but *out and new cells changed |
| `DeepCopy.Memory.CopyPointee` | apis/rke1/v1alpha1/zz_generated.deepcopy.go:223-227 | a pointer to a scalar becomes a pointer to a new variable with the same contents |
| `DeepCopy.Memory.CopySlice` | apis/rke1/v1alpha1/zz_generated.deepcopy.go:270-274 | a slice of scalars becomes a new one with the same elements |
| `DeepCopy.Memory.Fill` | apis/rke1/v1alpha1/zz_generated.deepcopy.go:248-254 | the loop over the keys, in any order, leaves a map equal to the source's and changes no other cell |
| `DeepCopy.Memory.CopyMap` | apis/rke1/v1alpha1/zz_generated.deepcopy.go:248-254 | a map of scalars becomes a new one with the same entries |
| `DeepCopy.Memory.CopySliceMap` | apis/rke1/v1alpha1/zz_generated.deepcopy.go:255-269 | a map of slices becomes a new map of new slices, pairwise apart, an entry that is nil staying nil, for every order of the keys |
| `DeepCopy.Memory.CopyStructMap` | apis/rke1/v1alpha1/zz_generated.deepcopy.go:1781-1787 | a map of structs becomes a new map of deep copies, pairwise apart |
| `DeepCopy.Memory.CopyStructPointer` | apis/rke1/v1alpha1/zz_generated.deepcopy.go:388-392 | a pointer to a struct becomes a pointer to a deep copy in a new variable |
| `DeepCopy.Memory.CopyStructSlice` | apis/rke1/v1alpha1/zz_generated.deepcopy.go:1940-1946 | a slice of structs becomes a new slice of deep copies, pairwise apart; each nested call meets its own requirement |
| `DeepCopy.Memory.DeepCopyBaseService` | apis/rke1/v1alpha1/zz_generated.deepcopy.go:246-312 | its eight containers are copied, and are pairwise apart even where the source's fields share one; source and target may be services of one configuration |
| `DeepCopy.Memory.DeepCopyDNSConfig` | apis/rke1/v1alpha1/zz_generated.deepcopy.go:539-602 | its maps, its map of slices, its slices and the structs it points to are copied, with nil entries of the map of slices still nil |
| `DeepCopy.Memory.DeepCopyRKEConfigNodePlan` | apis/rke1/v1alpha1/zz_generated.deepcopy.go:1779-1819 | its map of processes, its maps, slices and taints are copied |
| `DeepCopy.Memory.DeepCopyRKENodePool` | apis/rke1/v1alpha1/zz_generated.deepcopy.go:1853-1869 | its two maps are copied |
| `DeepCopy.Memory.DeepCopyRancherKubernetesEngineConfig` | apis/rke1/v1alpha1/zz_generated.deepcopy.go:1938-1994 | the whole configuration is copied: every cell reached from the copy is new and reached once, and it looks as the source did |
| `DeepCopy.Memory.DeepCopyClusterParameters` | apis/rke1/v1alpha1/zz_generated.deepcopy.go:441-451 | the configuration and the list of node pools are copied to every depth |
| `DeepCopy.Memory.DeepCopyRKE1ClusterList` | apis/rke1/v1alpha1/zz_generated.deepcopy.go:1558-1569 | every resource of the list is copied, pairwise apart |
| `DeepCopy.Memory.SelfCopyMap` | apis/rke1/v1alpha1/zz_generated.deepcopy.go:1855-1861 | with out == in the map is replaced before it is read, so an empty one is left |
| `DeepCopy.Memory.DeepCopyRKENodePoolOntoItself` | apis/rke1/v1alpha1/zz_generated.deepcopy.go:1853-1869 | with out == in both maps of a node pool end up empty; the pool is unchanged if and only if they had no entries |
| `GoMemory.Frame` | apis/rke1/v1alpha1/zz_generated.deepcopy.go:441-451 | what a value looks like and reaches depends on the cells it reaches and on no other |
| `Copies.SourceStays` | apis/rke1/v1alpha1/zz_generated.deepcopy.go:1938-1939 | the shallow copy and everything after it leave the source as it was, in spite of what is shared meanwhile |
| `Copies.FieldReady` | apis/rke1/v1alpha1/zz_generated.deepcopy.go:1947-1949 | every nested call finds its own requirement met: two variables, with nothing in the source leading to the target |
| `Copies.Step` | apis/rke1/v1alpha1/zz_generated.deepcopy.go:1940-1993 | the code for one field extends what is deeply copied by that field and keeps the rest |
| `Pointers.LoadStays` | apis/rke1/v1alpha1/zz_generated.deepcopy.go:1832-1840 | a change of one variable leaves another one alone, a field of the same struct too |
| `Copies.EntryStep` | apis/rke1/v1alpha1/zz_generated.deepcopy.go:1781-1787 | one round of a map loop keeps what is copied and apart, whichever key is next |
| `Independence.CopyLeavesSource` | apis/rke1/v1alpha1/zz_generated.deepcopy.go:454-461 | after the copy the source looks as before, and no cell is reached from both |
| `Independence.WritesThroughCopy` | internal/controller/rke1cluster/rke1cluster.go:164 | any sequence of writes through the copy, such as Create's to a pool's template id, leaves the source as it was |
| `Independence.WritesThroughSource` | apis/rke1/v1alpha1/zz_generated.deepcopy.go:441-451 | any sequence of writes through the source leaves the copy with the source's first look |
| `Independence.WritesUnderOneField` | apis/rke1/v1alpha1/zz_generated.deepcopy.go:246-312 | writes under one field of the copy never show under another, however much the source's fields share |
| `Independence.CopyAndResolve` | internal/controller/rke1cluster/rke1cluster.go:164 | copy the cluster parameters, then set a pool's template id through the copy: the result looks like the source but for that id, is all in new cells, and the source looks as it did |
| `Independence.SharedFieldsShowThrough` | apis/rke1/v1alpha1/zz_generated.deepcopy.go:246-254 | without the copy they do: two fields may hold one map |
| `RequestProperties.ListingMeans` | util/util.go:86-115 | an answer comes exactly if the request gets through, and has, entry by entry and in order, the id, name and state of every cluster the server has; every id was issued under the name it is listed with, an entry of the resource's own name was there before, and nothing is requested |
| `CreateProperties.PanicsExactly` | util/util.go:396-399 | the lookup indexes an empty answer exactly when the request is answered and no template has the name; it gives an id exactly when one has |
| `RequestProperties.CreationMeans` | util/util.go:117-150 | success is exactly an answer, with a new id listed under RKE.Name; without an answer the cluster is there exactly if the request was not refused; no other entry comes or goes |
| `RequestProperties.PoolMeans` | util/util.go:152-181 | the pool requested is the caller's but for the cluster id; success is exactly an answer; nothing else is concerned |
| `RequestProperties.DeletionMeans` | util/util.go:183-207 | unless refused no entry has the id and every other entry remains; success exactly if there was one and the answer came |
| `RequestProperties.LookupMeans` | util/util.go:46-49 | the secret is found exactly if it is there, its namespace is named, and the read does not fail |
| `RequestProperties.TemplateLookupMeans` | util/util.go:371-400 | an id is found exactly if the request is answered and a template has the name, and is that of the first one that does; nothing is changed |
| `ClusterController.CreateKubeconfigSecret` | util/util.go:37-44 | creates the secret if the lookup fails, else updates it |
| `ClusterController.GenerateKubeconfig` | util/util.go:51-84 | asks for a kubeconfig and stores it only if the lookup fails; stops at the first error |
| `ClusterController.Observe` | internal/controller/rke1cluster/rke1cluster.go:118-150 | the loop, with its writes to the resource and its early return, does to the world and the resource what the specification says |
| `ClusterController.Create` | internal/controller/rke1cluster/rke1cluster.go:152-182 | the two loops around the one POST do what the specification says, to the pool array in place |
| `ClusterController.Reconcile` | internal/controller/rke1cluster/rke1cluster.go:109-110 | observe, then create, delete or nothing |
| `ObserveProperties.LoopIsFold` | internal/controller/rke1cluster/rke1cluster.go:128-143 | the loop equals a left fold over the listing that stops at its first failure |
| `ObserveProperties.ObserveOk` | internal/controller/rke1cluster/rke1cluster.go:129-149 | without an error the resource exists iff some entry the server has is of its name; id and condition are those of the last one, or as they were |
| `ObserveProperties.ObserveErr` | internal/controller/rke1cluster/rke1cluster.go:134-138 | after a listing there is an error iff some active entry of the name comes up, nothing before it having failed, whose kubeconfig cannot be made; the loop stops there with its id and Available recorded |
| `ObserveProperties.ObserveUnanswered` | internal/controller/rke1cluster/rke1cluster.go:124-127 | when the listing fails Observe does, with nothing recorded or requested |
| `ObserveProperties.ObserveOnly` | internal/controller/rke1cluster/rke1cluster.go:129-143 | with one entry of the name, an active one makes it Available and its kubeconfig decides between success and error; any other state makes it Unavailable, a success that requests nothing |
| `ObserveProperties.ObserveQuiet` | internal/controller/rke1cluster/rke1cluster.go:133-141 | unless the server lists an active cluster of the name, Observe requests nothing but the listing |
| `ObserveProperties.ObserveRequests` | internal/controller/rke1cluster/rke1cluster.go:129-143 | what Observe requests is the kubeconfig of a cluster the server lists active under the name, or the writing of the resource's own secret when there is one |
| `KubeconfigRuns.RunRequests` | internal/controller/rke1cluster/rke1cluster.go:129-143 | over every run each kubeconfig asked for is of a cluster that the listing of that reconcile shows active under the name, and each secret written is the resource's own, in such a reconcile |
| `ObserveProperties.ReconcileMeans` | internal/controller/rke1cluster/rke1cluster.go:109-110 | a reconcile without a listing, or with nothing to delete, changes nothing; one that finds nothing is a Create; one that finds the cluster records it, leaves the pools alone, and deletes the recorded id exactly if it is deleting and Observe did not fail |
| `ClusterController.ResolveReferences` | internal/controller/rke1cluster/rke1cluster.go:158-166 | the first loop of Create, on the pool array in place, is the loop of the specification |
| `ClusterController.PostNodePools` | internal/controller/rke1cluster/rke1cluster.go:173-178 | the second loop of Create is the loop of the specification, and leaves the pools alone |
| `CreateProperties.ResolveOutcome` | internal/controller/rke1cluster/rke1cluster.go:158-166 | the pools before the stop have exactly the id their own lookup gave, all else is as it was, and the lookup at the stop failed |
| `CreateProperties.ResolvesExactly` | internal/controller/rke1cluster/rke1cluster.go:158-166 | in any world the loop goes through exactly if every reference is found by its own lookup, and stops exactly at the first that is not |
| `CreateProperties.ResolveStable` | internal/controller/rke1cluster/rke1cluster.go:158-166 | against an unchanged server a success is the lookup of every reference |
| `CreateProperties.RerunChangesNothing` | internal/controller/rke1cluster/rke1cluster.go:158-166 | against an unchanged server running it again changes no pool, whether the rerun gets to the end or stops part-way |
| `CreateProperties.PostPoolsOutcome` | internal/controller/rke1cluster/rke1cluster.go:173-178 | the pools posted are a prefix of the list, in order, and nothing else is done; the loop stops exactly at the first post that is not answered |
| `CreateProperties.PostedExactly` | internal/controller/rke1cluster/rke1cluster.go:173-178 | pool n is posted exactly if every post before it was answered; the loop succeeds exactly if all were |
| `CreateProperties.CreateSucceedsExactly` | internal/controller/rke1cluster/rke1cluster.go:152-182 | Create succeeds exactly if every reference is found, the creation is answered, and so is every post of a pool |
| `CreateProperties.CreatePostsAllExactly` | internal/controller/rke1cluster/rke1cluster.go:158-178 | Create requests all pools exactly if every reference is found, the creation is answered, and so is every post of a pool but the last |
| `CreateProperties.CreateOutcome` | internal/controller/rke1cluster/rke1cluster.go:158-181 | no cluster is posted unless all references resolve, no pool unless the id came back; the pools posted are a prefix of the resolved list under that id, all of it when Create succeeds |
| `Registry.ReconcileKeepsOne` | internal/controller/rke1cluster/rke1cluster.go:118-182 | one reconcile under interference leaves at most one entry of the name |
| `Registry.RunKeepsOne` | internal/controller/rke1cluster/rke1cluster.go:118-182 | single creation for the abstract machine over every run |
| `Registry.DeleteInLane` | internal/controller/rke1cluster/rke1cluster.go:197-207 | what the machine deletes was issued under its name, and every entry of another name outlives it |
| `Registry.RunDeletesInLane` | internal/controller/rke1cluster/rke1cluster.go:197-207 | the same over every run, every time sparing all entries of other names, and only while the resource is being deleted |
| `Registry.OthersMayRely` | util/util.go:117-150 | posting under one name and deleting are changes that the owner of any other name relies on |
| `Registry.RunDescends` | internal/controller/rke1cluster/rke1cluster.go:118-182 | over every run an entry of the name was there before or has a newer id |
| `ClusterRuns.ObserveDrifts` | internal/controller/rke1cluster/rke1cluster.go:118-150 | Observe requests nothing about clusters or pools, and what it reports was so when it listed |
| `ClusterRuns.ReconcileRefines` | internal/controller/rke1cluster/rke1cluster.go:118-207 | one reconcile of the controller, with any faults, is one reconcile of the machine |
| `ClusterRuns.RunRefines` | internal/controller/rke1cluster/rke1cluster.go:118-207 | a run of the controller is a run of the machine |
| `ClusterRuns.SingleCreation` | internal/controller/rke1cluster/rke1cluster.go:130 | with RKE.Name equal to the resource's name no run leaves two clusters of the name, whatever fails, a create accepted but reported as an error included |
| `Lanes.SingleCreationExactly` | util/util.go:119 | single creation holds exactly when the two names are equal |
| `Lanes.PostsAnother` | util/util.go:117-119 | with different names every reconcile of a calm world posts one more cluster |
| `Lanes.RunInLane` | internal/controller/rke1cluster/rke1cluster.go:129-132 | over every run each deletion is of an id the server issued under the resource's name |
| `Lanes.RunSpares` | internal/controller/rke1cluster/rke1cluster.go:197-207 | over every run, with any faults, a cluster of another name that nobody else removes outlives it |
| `PoolRuns.ReconcilePools` | internal/controller/rke1cluster/rke1cluster.go:168-178 | one reconcile posts pools only under an id issued in it |
| `PoolRuns.RunPostsPoolsOnce` | internal/controller/rke1cluster/rke1cluster.go:168-178 | over every run the pools posted under any id are, in order, a prefix of the list as written; after its Create nothing is posted under an id any more, so missing pools stay missing |
| `PoolRuns.RunPoolsExactly` | internal/controller/rke1cluster/rke1cluster.go:168-178 | over every run the pools under an id that a reconcile obtained are the whole written list exactly if in that reconcile every reference was found, the creation was answered, and so was every post but the last |
| `PoolConvergence.GoalPoolsExactly` | internal/controller/rke1cluster/rke1cluster.go:118-178 | when a converged cluster has all its pools: exactly if that held of the reconcile that made it |
| `PoolConvergence.FaultlessHasPools` | internal/controller/rke1cluster/rke1cluster.go:152-182 | without a fault it has them all |
| `PoolConvergence.Stranded` | util/util.go:117-150 | a run that reaches the goal and stays there with no pool ever requested: the creation was accepted and its answer lost |
| `PoolTemplates.RunPoolsFound` | internal/controller/rke1cluster/rke1cluster.go:158-166 | over every run each pool with a reference is posted with an id that a lookup of the reference gave |
| `PoolRuns.PoolsFromTheStart` | internal/controller/rke1cluster/rke1cluster.go:168-178 | the same for a resource that starts with an empty request log |
| `SecretRuns.RunWritesOnce` | util/util.go:51-84 | with a named namespace and reads that fail only when the secret is absent, a present secret is never touched nor a kubeconfig asked for, and an absent one is written once if it is there in the end, else never |
| `SecretRuns.PresentSecret` | util/util.go:37-84 | exactly when, with reads that may fail, a present secret is overwritten, and with what; exactly what is requested, and exactly when the call succeeds |
| `SecretRuns.AbsentSecret` | util/util.go:22-84 | for an absent secret and any namespace: it is there afterwards, in the namespace or in `default` and with the new kubeconfig, exactly if the kubeconfig is answered and the creation not refused; exactly what is requested, and exactly when the call succeeds |
| `SecretRuns.CreateSecretExactly` | util/util.go:22-44 | creating or updating: exactly when the secret is written, under which key and with what, and exactly when the call succeeds |
| `SecretRuns.CurrentExactly` | util/util.go:51-84 | of a cluster listed later the secret is the kubeconfig exactly if the cluster was not made since: one that was removed and made again keeps the old one's |
| `SecretRuns.NewSecret` | util/util.go:51-84 | a secret that was not there is written for the cluster observed |
| `NoNamespace.StaysExactly` | util/util.go:22-24 | a reconcile of a resource that has all it wants changes nothing iff the namespace is named |
| `NoNamespace.SecondFails` | util/util.go:22-49 | in the calm and without a namespace the first Observe of its one cluster creates the secret in `default` and succeeds, and the next one fails |
| `NoNamespace.RunRefuses` | internal/controller/rke1cluster/rke1cluster.go:133-138 | in any world and over every run: while its cluster is listed active, a resource that has its secret and names no namespace deletes and creates nothing |
| `NoNamespace.DeletesExactly` | util/util.go:46-49 | such a resource is gone after any positive number of reconciles that delete it iff the namespace is named; without it none deletes it |
| `SecretIsolation.KeysCollideExactly` | util/util.go:22-30 | the keys of two secrets are equal iff the names are and the namespaces are after defaulting |
| `Paths.RunTicks` | internal/controller/rke1cluster/rke1cluster.go:118-207 | a run is a path of single requests, each one turn of the environment and one effect of the resource's own |
| `SecretIsolation.RunAside` | util/util.go:37-84 | over every run of one resource, with any faults, the secret of a resource of another name is neither made, overwritten nor removed |
| `Convergence.ReconcileAdvances` | internal/controller/rke1cluster/rke1cluster.go:118-182 | every reconcile that others leave alone reaches the goal, or spends a fault or a delay, or makes the missing cluster; only a removal sets it back |
| `Convergence.EachIsPaidFor` | internal/controller/rke1cluster/rke1cluster.go:118-182 | over every run, until the goal is reached, each reconcile is paid for by a fault, a delay, a removal or the one creation |
| `Convergence.Converges` | internal/controller/rke1cluster/rke1cluster.go:118-182 | of the cluster, not of its pools: with equal names, a named namespace and references that resolve in the end, "exists, Available, secret present" is reached within one reconcile for each fault and each delay, two for each removal, and two more, whatever the length of the script |
| `Convergence.AlwaysConverges` | internal/controller/rke1cluster/rke1cluster.go:118-182 | and so it always is, for every script |
| `Convergence.GoalStays` | internal/controller/rke1cluster/rke1cluster.go:118-150 | once there, with truthful reads and the cluster left alone, a reconcile requests and writes nothing whatever else fails or moves; and without a fault or delay the status stays |
| `Convergence.DeletesNothing` | internal/controller/rke1cluster/rke1cluster.go:118-182 | a reconcile of a resource that is kept deletes nothing, so removals are the doing of others |
| `Convergence.ReconcileRemoves` | internal/controller/rke1cluster/rke1cluster.go:197-207 | a reconcile of a resource being deleted deletes its cluster or spends a fault; without a cluster it requests nothing |
| `Convergence.Removes` | internal/controller/rke1cluster/rke1cluster.go:197-207 | with a named namespace deletion takes at most one reconcile more than there are faults to come, whatever the length of the script and however slow the cluster, and then it stays gone |
| `Interleaving.EveryInterleavingKeepsOne` | internal/controller/rke1cluster/rke1cluster.go:118-182 | with any number of resources whose list, act and secret steps interleave freely, none posting under the name of another, no name is ever held by two entries |
| `Interleaving.SingleTogetherExactly` | util/util.go:119 | names stay single over every interleaving exactly when no resource posts under the name of another |
| `Interleaving.EveryRemovalInLane` | internal/controller/rke1cluster/rke1cluster.go:197-207 | in every interleaving, whatever names are posted, a removal is of an id issued under the remover's name and spares all entries of other names |
| `Interleaving.EveryStepIsAnAct` | internal/controller/rke1cluster/rke1cluster.go:118-207 | in every interleaving in which none posts under the name of another, what a resource does is an act of the machine |
| `Interleaving.ReconcileIsSteps` | internal/controller/rke1cluster/rke1cluster.go:118-207 | every reconcile of the machine, and so of the controllers, is a sequence of list and act steps with what goes on around them |
| `Interleaving.SecretsKeptApart` | util/util.go:37-44 | however many resources interleave, each finds its secret as it last wrote it itself |
| `TemplateController.Observe` | internal/controller/rke1nodetemplate/rke1nodetemplate.go:150-179 | the loop does what the specification says |
| `TemplateController.Create` | internal/controller/rke1nodetemplate/rke1nodetemplate.go:181-219 | the two lookups and the POST do what the specification says, with the spec's fields changed in place |
| `TemplateController.Reconcile` | internal/controller/rke1nodetemplate/rke1nodetemplate.go:140-141 | observe, then create, delete or nothing |
| `TemplateRuns.ObserveTemplateMeans` | internal/controller/rke1nodetemplate/rke1nodetemplate.go:156-178 | the template exists iff some entry the server has is of its name; the status is that of the last one, or as it was; when the listing fails Observe does, with nothing recorded |
| `TemplateProperties.TemplateCreationMeans` | util/util.go:215-248 | success is exactly an answer, with a new id listed under ForProvider.Name; without one the template is there exactly if the request was not refused; no other entry comes or goes |
| `TemplateProperties.TemplateDeletionMeans` | util/util.go:250-275 | unless refused no entry has the id and every other entry remains; success exactly if there was one and the answer came |
| `TemplateProperties.CreateTemplateMeans` | internal/controller/rke1nodetemplate/rke1nodetemplate.go:187-219 | a VPC that is not found leaves all as it was; a subnet that is not leaves the VPC's id in the spec and the subnet field as it was; else the spec has both ids found and the template is posted with that very spec, and Create succeeds exactly if the post is answered |
| `TemplateProperties.ReconcileTemplateMeans` | internal/controller/rke1nodetemplate/rke1nodetemplate.go:140-141 | a reconcile without a listing, or with nothing to delete, changes nothing; one that finds nothing is a Create; one that finds the template records the last entry, leaves the spec alone, and deletes the recorded id exactly if it is deleting |
| `TemplateRuns.NewTemplateActs` | util/util.go:215-248 | the POST is the posting of the machine, under ForProvider.Name, accepted or not |
| `TemplateRuns.DropTemplateActs` | util/util.go:250-275 | on the registry the DELETE is the deletion of the machine, of the id that was listed, accepted or not |
| `TemplateRuns.RunPostsFound` | internal/controller/rke1nodetemplate/rke1nodetemplate.go:187-219 | over every run a template is posted only with every reference resolved to an id found under it, and with all else as written |
| `TemplateRuns.ReconcileTemplateRefines` | internal/controller/rke1nodetemplate/rke1nodetemplate.go:150-246 | one reconcile is one reconcile of the same machine, and deletes in its lane |
| `TemplateRuns.RunTemplateRefines` | internal/controller/rke1nodetemplate/rke1nodetemplate.go:150-246 | a run is a run of the machine |
| `TemplateRuns.TemplatesCarryOver` | internal/controller/rke1nodetemplate/rke1nodetemplate.go:150-246 | single creation, with equal names, and deletion only of ids issued under the name carry over to node templates |
| `TemplateRuns.RunTemplateSpares` | internal/controller/rke1nodetemplate/rke1nodetemplate.go:236-246 | over every run, with any faults, a template of another name that nobody else removes outlives it |
| `TemplateConvergence.Converges` | internal/controller/rke1nodetemplate/rke1nodetemplate.go:150-219 | with equal names and references found in the end, "exists, Available" is reached within one reconcile for each fault and each delay, two for each removal, and two more |
| `TemplateConvergence.ReconcileRemoves` | internal/controller/rke1nodetemplate/rke1nodetemplate.go:236-246 | a reconcile of a template being deleted deletes it or spends a fault; without one it requests nothing |
| `TemplateConvergence.Removes` | internal/controller/rke1nodetemplate/rke1nodetemplate.go:236-246 | deletion takes at most one reconcile more than there are failing requests to come |
| `TemplateRuns.SingleTemplateExactly` | util/util.go:215-217 | single creation of templates holds exactly when ForProvider.Name equals the resource's name |

## Left out

- HTTP, JSON, headers and URLs: a util call is one request with a well-formed answer or an error; a body that does not decode on a success code is not modelled.
- `Connect`, credentials, tokens and ProviderConfig usage: calls into libraries with no state of interest.
- `GetVpcIdByTags` and `GetSubnetIdByTags`: the AWS SDK is a table of what is found by a reference, changed at will by the environment; regions and the `ManagedBy` tag are not modelled.
- crossplane-runtime: only "observe, then create, delete or nothing" of one resource at a time; no finalizers, pending annotations, queues or leader election. That the pools Create resolved in memory are still resolved at the next reconcile is the model's choice.
- `Update`: it only prints, and Observe always reports up to date.
- `Clients.GetNodeTemplateByName`: the panic on an empty answer ends Create as an error does; what it does to the process is not modelled.
- The server: ids are numbers issued in order, a new entry is "provisioning", a deletion removes the entry at once; node pools are modelled by the requests that post them, not as server state.
- Kubernetes Create and Update fail exactly when the secret is there, or is not, or the request is refused; secrets other than the kubeconfigs hold no more than such a value.
- The Go heap is a class with a sequence of cells that the methods change, not Dafny objects with footprints. Aliasing, nil and update in place are modelled on the cells.
- `DeepCopy.Memory.DeepCopyInto`: asks that nothing the source leads to lies in the array that holds the target, where the target's own slot would do, because sharing is tracked by array.
- Slice capacity is not modelled.
- `DeepCopy.Memory.Select`: stands for the choice of method by static type; the methods for the structs without a row of their own have the same contract as those with one.
- The scalar fields of a struct are one, first, field; structs of scalars only, whose `DeepCopyInto` is `*out = *in`, are scalars.
- `DeepCopy.Memory.DeepCopyForeign`: stands for the `DeepCopyInto` of other packages (ObjectMeta, ResourceSpec, Toleration, EnvVar, Volume and the like), which are not part of this model, as a struct with a pointer.
- `DeepCopy.Memory.DeepCopyForeignHolder`: one struct for ExtraEnv, ExtraVolume and ExtraVolumeMount, whose code is the same.
- `DeepCopy.Memory.DeepCopyBaseOnlyService`: one struct for the controller-manager, kubelet, kubeproxy and scheduler services, whose code is the same.
- `KubernetesServicesOptions`, the ProviderConfig types, list responses and the node template types: their deep copies use no form of code that is not already here.
- `PoolRuns.PoolsFromTheStart`: compares pools as written, without the resolved template id; that a resolved id is one a lookup gave is `PoolTemplates.RunPoolsFound`.
- `Interleaving` runs cluster resources; node templates are the same machine on a registry of their own and write no secrets.
- The repository's own README describes the template the provider was generated from (`MyType`), not this code; the model follows the code.
