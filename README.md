# Pool repositories and CI include mapping, modelled in Dafny

This project models two pieces of a GitLab code base.

**Pool repositories** (`pool_state_machine.dfy`, `pool_repository.dfy`). A pool
repository is the database record of a git object pool. The pool is one
deduplicated object store that the projects of a fork network share. The record
runs a state machine over `none`, `scheduled`, `ready`, `failed` and `obsolete`.
Its four events are `schedule`, `mark_ready`, `mark_failed` and `mark_obsolete`.
Three `after_transition` hooks enqueue worker jobs keyed by the pool id:
CreateWorker, ScheduleJoinWorker and DestroyWorker. Other operations go to the
on-disk object pool: create, delete, link and unlink.

- Module `PoolStateMachine` holds the pure part. It has the transition table,
  `joinable?`, the hooks' jobs, and `Run`, which fires a sequence of events.
  Lemmas about whole event sequences sit beside it.
- Module `Pools` holds the record as a class, `PoolRepository`. The class has
  the state, the write-once disk path, the member projects and the memoised
  object-pool handle. It also has two logs: the jobs handed to the queue, and
  the calls made on the object pool.

The model follows the code. Several behaviours are easy to get wrong:

- `obsolete` is not terminal. `mark_failed` is declared `all => :failed`, so it
  leaves `obsolete`, and `mark_ready` can then follow.
- Only `scheduled -> ready` enqueues the join job. The recovery path
  `failed -> ready` enqueues no job.
- `after_transition any => :obsolete` also matches the loopback
  `obsolete -> obsolete`. So every accepted `mark_obsolete` enqueues a
  DestroyWorker job, even on a pool that is already obsolete.
- A rejected event returns false and leaves the record unchanged. It raises
  nothing.
- `unlink_repository` does not remove anything from `member_projects`. It only
  asks whether a member project other than the unlinked repository's own
  remains. The source project is not excluded from that test.
- Linking does not check `joinable?`.

**CI external includes** (`external_mapper.dfy`). The mapper of a CI
configuration turns the `:include` value into a list of locations. It then maps
each location to an external file. The file's kind is the first of Remote,
Template and Local whose `matching?` holds. When none holds, the file is
NotSupported. `matching?` is a parameter of the model.

## Model

| member | source | states |
|---|---|---|
| PoolStateMachine.Transition | app/models/pool_repository.rb:17-37 | `schedule` is allowed exactly from `none`; `mark_ready` exactly from `scheduled` or `failed`; `mark_failed` and `mark_obsolete` from every state; an allowed event ends in its target state, and no event leads back to `none` |
| PoolStateMachine.Joinable | app/models/pool_repository.rb:39-49 | `joinable?` holds exactly in state `ready` |
| PoolStateMachine.AfterTransitionJobs | app/models/pool_repository.rb:51-67 | a transition enqueues at most one job, all for the pool's id: CreateWorker exactly on `none -> scheduled`, ScheduleJoinWorker exactly on `scheduled -> ready`, DestroyWorker exactly when entering `obsolete` |
| PoolStateMachine.Fire | app/models/pool_repository.rb:23-67 | an event is accepted iff the table allows it; if accepted, the state becomes the event's target and the hooks' jobs are enqueued; if rejected, the state is unchanged and nothing is enqueued |
| PoolStateMachine.CreateJobAtMostOnce | app/models/pool_repository.rb:23-25 | over any sequence of events, at most one CreateWorker job is enqueued, and none once the pool has left `none` |
| PoolStateMachine.DestroyJobPerMarkObsolete | app/models/pool_repository.rb:63-67 | over any sequence of events, the number of DestroyWorker jobs equals the number of `mark_obsolete` events |
| PoolStateMachine.NoJoinJobPastScheduled | app/models/pool_repository.rb:57-61 | from `ready`, `failed` or `obsolete`, no sequence of events enqueues a ScheduleJoinWorker job |
| PoolStateMachine.JoinJobFollowsCreateJob | app/models/pool_repository.rb:23-61 | for a new pool, if any ScheduleJoinWorker job is enqueued, then the first job enqueued was the CreateWorker job |
| PoolStateMachine.ObsoleteIsNotTerminal | app/models/pool_repository.rb:27-33 | from `obsolete`, `mark_failed` then `mark_ready` ends in `ready` and enqueues nothing |
| PoolStateMachine.RecoveryEnqueuesNoJoinJob | app/models/pool_repository.rb:27-61 | `scheduled`, then `mark_failed`, then `mark_ready` ends joinable with no job enqueued |
| Pools.DistinctPoolsDistinctObjectPools | app/models/pool_repository.rb:91-111 | two records with different ids, whose disk paths come from an injective hashed storage layout, have object-pool handles with different relative paths (`disk_path + '.git'`), so they never share an on-disk pool |
| Pools.NoOtherMember | app/models/pool_repository.rb:88 | "no other member project exists" holds iff every member project is the unlinked repository's project |
| Pools.PoolRepository.Create | app/models/pool_repository.rb:15-17 | a new record starts in `none`, not joinable, with no job, no call on the object pool and no memoised handle; its disk path is the hashed storage path of its id |
| Pools.PoolRepository.Joinable | app/models/pool_repository.rb:39-49 | `joinable?` of the record holds exactly in state `ready` |
| Pools.PoolRepository.FireStateEvent | app/models/pool_repository.rb:23-67 | firing an event returns whether the table allows it; the new state and the appended jobs are those of `Fire` on the old state; nothing else changes |
| Pools.PoolRepository.ObjectPool | app/models/pool_repository.rb:91-97 | the handle names the shard, the path `disk_path + '.git'`, the source repository and its full path; it is memoised, and a memoised handle is returned as it is |
| Pools.PoolRepository.CreateObjectPool | app/models/pool_repository.rb:70-72 | exactly one create call is logged, on the pool's handle |
| Pools.PoolRepository.DeleteObjectPool | app/models/pool_repository.rb:74-78 | exactly one delete call is logged, on the pool's handle |
| Pools.PoolRepository.LinkRepository | app/models/pool_repository.rb:80-82 | exactly one link call for the repository is logged; state, jobs and members are unchanged |
| Pools.PoolRepository.UnlinkRepository | app/models/pool_repository.rb:84-89 | the unlink call is always logged; the pool becomes `obsolete` and enqueues one DestroyWorker job iff no member project other than the repository's own remains, and otherwise the state and jobs are unchanged; the member set is unchanged |
| Pools.CreationScenario | app/models/pool_repository.rb:23-61 | a new pool that is scheduled and then marked ready is joinable, and has enqueued exactly CreateWorker and then ScheduleJoinWorker |
| Pools.UnlinkScenario | app/models/pool_repository.rb:85-89 | unlinking one of two member projects leaves a ready pool ready; unlinking the only member project makes a new pool (another record, with its own id) obsolete with exactly one DestroyWorker job for that id |
| ExternalMapper.Locations | lib/gitlab/ci/config/external/mapper.rb:15 | no `:include` key, or a nil value, gives no locations; a single location is wrapped into a one-element list; a list is kept as it is |
| ExternalMapper.NewMapper | lib/gitlab/ci/config/external/mapper.rb:14-18 | the mapper keeps the normalised locations, the project and the sha |
| ExternalMapper.FirstMatch | lib/gitlab/ci/config/external/mapper.rb:28-38 | the candidates built are a prefix of the kinds, in order, all with the same location and options; every candidate before the last does not match; a supported result is the last candidate and matches; a NotSupported result means every kind was tried and none matched |
| ExternalMapper.BuildExternalFile | lib/gitlab/ci/config/external/mapper.rb:8-38 | the file has the location and the mapper's project and sha as options; its kind is the first of Remote, Template, Local (in that order) whose `matching?` holds, and NotSupported iff none does; a supported file matches; every candidate built shares the location and options |
| ExternalMapper.FirstMatchingIndex | lib/gitlab/ci/config/external/mapper.rb:31-34 | reference definition: the index of the first matching kind, or the number of kinds when none matches |
| ExternalMapper.FirstMatchIsFirst | lib/gitlab/ci/config/external/mapper.rb:31-37 | the search returns the kind at the first matching index, having built exactly the candidates up to it; with no match it returns NotSupported after trying every kind |
| ExternalMapper.ProcessLocations | lib/gitlab/ci/config/external/mapper.rb:20-22 | one file per location, the i-th built from the i-th location |
| ExternalMapper.Process | lib/gitlab/ci/config/external/mapper.rb:20-22 | `process` returns exactly one file per location, in order, each with that location and the mapper's options |
| ExternalMapper.NoIncludeProcessesNothing | lib/gitlab/ci/config/external/mapper.rb:15-22 | without an `:include` key, `process` returns an empty list |
| ExternalMapper.SingleIncludeProcessesOne | lib/gitlab/ci/config/external/mapper.rb:15-22 | a single include location yields exactly one file, for that location |
| ExternalMapper.ProcessLocationsAppend | lib/gitlab/ci/config/external/mapper.rb:20-22 | processing the concatenation of two location lists gives the concatenation of the results |

## Left out

- The object-pool RPCs (create, delete, link, unlink on the storage service) are recorded in the `rpcs` log. Their effect on disk and their failures are not modelled.
- `perform_async` on the three workers is recorded in the `jobs` log. The workers themselves, the queue's delivery guarantees and retries are not modelled.
- The deferral of jobs until the transaction commits (`run_after_commit`) is not modelled. A job in the log is one handed to the queue after the commit. Durability and crashes between the commit and the enqueue are not modelled either.
- `validates :source_project, presence: true` is not modelled. The record always has a source project. A failed save, which would make an event return false, does not occur in the model.
- `Storage::HashedProject` is not part of this model. The pool's disk path is the result of an opaque function `storage` of the pool id.
- The shard (`Shardable`) is only a name stored with the record.
- Changes to `member_projects` happen outside this file (projects joining and leaving the pool). In the model the member set is an input to the constructor.
- `inspect` is string formatting for debugging and is not modelled.
- Concurrent transitions on the same record are not modelled. Each method runs alone.
- `matching?` of the Remote, Template and Local file classes is not part of this model. It is the uninterpreted parameter `matching`.
- ExternalMapper.Locations: an `:include` value that is a hash is not modelled. Ruby's `Array()` would turn it into a list of key/value pairs. The model covers nil, a single location and a list of locations.
