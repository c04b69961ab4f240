/**
 The PoolRepository record: the database side of a git object pool shared by a
 fork network. It holds the pool's state (driven by the machine in module
 PoolStateMachine), its disk path, the projects that are members of the pool,
 and the memoised handle on the on-disk object pool.

 The object-pool RPCs (create, delete, link, unlink) and the job queue are
 foreign calls; here they are effects appended to two logs, `rpcs` and `jobs`.
 The jobs in `jobs` are those handed to the queue once the state change is
 committed.
 */
module Pools {
  import opened PoolStateMachine

  type ProjectId = nat

  /** The identity of a project's raw git repository on its storage shard. */
  type RawRepository = string

  /** The source project of the pool, as far as the pool reads it. */
  datatype Project = Project(id: ProjectId, raw: RawRepository, pathWithNamespace: string)

  /** A repository passed to link/unlink: its raw repository and its project. */
  datatype Repository = Repository(raw: RawRepository, project: ProjectId)

  /** The arguments of the on-disk object pool handle: the shard name, the pool's
      relative path, the source repository and the source's full path. */
  datatype GitObjectPool =
    GitObjectPool(storage: string, relativePath: string, sourceRepository: RawRepository, glRepositoryPath: string)

  /** The calls made on the on-disk object pool, in the order they were made. */
  datatype Rpc =
    | CreatePool(pool: GitObjectPool)
    | DeletePool(pool: GitObjectPool)
    | Link(pool: GitObjectPool, repository: RawRepository)
    | Unlink(pool: GitObjectPool, repository: RawRepository)

  /** An instance variable assigned with `||=`: unset until first read. */
  datatype Memo<T> = Unset | Memoised(value: T)

  /** The pool's path relative to its shard: the disk path with a `.git` suffix. */
  function PoolRelativePath(diskPath: string): string
  {
    diskPath + ".git"
  }

  /** Distinct disk paths give distinct pool paths. */
  lemma PoolRelativePathInjective(a: string, b: string)
    requires PoolRelativePath(a) == PoolRelativePath(b)
    ensures a == b
  {
    assert |a| == |b|;
    assert a == PoolRelativePath(a)[..|a|];
    assert b == PoolRelativePath(b)[..|b|];
  }

  /** Whether unlinking a repository of project `project` leaves the pool without
      a member: the `member_projects.where.not(id: ...).exists?` test, negated. */
  function NoOtherMember(members: set<ProjectId>, project: ProjectId): (r: bool)
    ensures r <==> members <= {project}
    ensures r ==> forall p :: p in members ==> p == project
  {
    members - {project} == {}
  }

  class PoolRepository {
    const id: PoolId
    const sourceProject: Project
    const shardName: string
    /** Written once, by the after-create hook, from the hashed storage path of the
        pool id; nothing changes it afterwards. */
    const diskPath: string

    var state: PoolState
    /** The projects whose pool repository is this pool. Other parts of the
        application add and remove them; nothing in this class does. */
    var memberProjects: set<ProjectId>
    var jobs: seq<Job>
    var rpcs: seq<Rpc>
    var objectPoolMemo: Memo<GitObjectPool>

    /** The handle `object_pool` builds from the record's fields. */
    function ObjectPoolHandle(): (p: GitObjectPool)
    {
      GitObjectPool(shardName, PoolRelativePath(diskPath), sourceProject.raw, sourceProject.pathWithNamespace)
    }

    /** The memoised handle, once set, is the one the current record describes. */
    ghost predicate Valid()
      reads this
    {
      objectPoolMemo.Memoised? ==> objectPoolMemo.value == ObjectPoolHandle()
    }

    /** Creating the record: the state starts as `none`, and the after-create
        hook writes the disk path computed from the pool id by `storage` (the
        hashed storage layout for pools, which is not part of this model). */
    constructor Create(id: PoolId, sourceProject: Project, shardName: string,
                       members: set<ProjectId>, storage: PoolId -> string)
      ensures Valid()
      ensures this.id == id && this.sourceProject == sourceProject && this.shardName == shardName
      ensures diskPath == storage(id)
      ensures state == None && !Joinable()
      ensures memberProjects == members
      ensures jobs == [] && rpcs == [] && objectPoolMemo == Unset
    {
      this.id := id;
      this.sourceProject := sourceProject;
      this.shardName := shardName;
      this.diskPath := storage(id);
      state := None;
      memberProjects := members;
      jobs := [];
      rpcs := [];
      objectPoolMemo := Unset;
    }

    /** `joinable?`: true exactly in state `ready`. */
    function Joinable(): (r: bool)
      reads this
      ensures r <==> state == Ready
    {
      PoolStateMachine.Joinable(state)
    }

    /** Firing one of the four events (`schedule`, `mark_ready`, `mark_failed`,
        `mark_obsolete`). A rejected event returns false and changes nothing; an
        accepted one moves the state and enqueues the hooks' jobs. */
    method FireStateEvent(e: Event) returns (accepted: bool)
      requires Valid()
      modifies this`state, this`jobs
      ensures Valid()
      ensures accepted <==> Transition(old(state), e).Moved?
      ensures state == Fire(old(state), e, id).state
      ensures jobs == old(jobs) + Fire(old(state), e, id).jobs
    {
      match Transition(state, e)
      case Rejected =>
        accepted := false;
      case Moved(to) =>
        var from := state;
        state := to;
        jobs := jobs + AfterTransitionJobs(from, to, id);
        accepted := true;
    }

    /** `object_pool`: builds the handle on first use and returns the memoised one
        afterwards; its path is always the disk path plus `.git`. */
    method ObjectPool() returns (pool: GitObjectPool)
      requires Valid()
      modifies this`objectPoolMemo
      ensures Valid()
      ensures pool.relativePath == PoolRelativePath(diskPath)
      ensures pool.storage == shardName
      ensures pool.sourceRepository == sourceProject.raw
      ensures pool.glRepositoryPath == sourceProject.pathWithNamespace
      ensures objectPoolMemo == Memoised(pool)
      ensures old(objectPoolMemo).Memoised? ==> pool == old(objectPoolMemo).value
    {
      if objectPoolMemo.Unset? {
        objectPoolMemo := Memoised(ObjectPoolHandle());
      }
      pool := objectPoolMemo.value;
    }

    /** `create_object_pool`. */
    method CreateObjectPool()
      requires Valid()
      modifies this`objectPoolMemo, this`rpcs
      ensures Valid()
      ensures objectPoolMemo == Memoised(ObjectPoolHandle())
      ensures rpcs == old(rpcs) + [CreatePool(ObjectPoolHandle())]
    {
      var pool := ObjectPool();
      rpcs := rpcs + [CreatePool(pool)];
    }

    /** `delete_object_pool`. The members must have fetched their missing objects
        beforehand; nothing here checks that. */
    method DeleteObjectPool()
      requires Valid()
      modifies this`objectPoolMemo, this`rpcs
      ensures Valid()
      ensures objectPoolMemo == Memoised(ObjectPoolHandle())
      ensures rpcs == old(rpcs) + [DeletePool(ObjectPoolHandle())]
    {
      var pool := ObjectPool();
      rpcs := rpcs + [DeletePool(pool)];
    }

    /** `link_repository`: links the repository to the pool. It does not look at
        the state and does not change the member set. */
    method LinkRepository(repository: Repository)
      requires Valid()
      modifies this`objectPoolMemo, this`rpcs
      ensures Valid()
      ensures objectPoolMemo == Memoised(ObjectPoolHandle())
      ensures rpcs == old(rpcs) + [Link(ObjectPoolHandle(), repository.raw)]
    {
      var pool := ObjectPool();
      rpcs := rpcs + [Link(pool, repository.raw)];
    }

    /** `unlink_repository`: always unlinks the repository from the pool, then
        marks the pool obsolete when no member project other than the
        repository's own remains. The member set itself is left as it was. */
    method UnlinkRepository(repository: Repository)
      requires Valid()
      modifies this`objectPoolMemo, this`rpcs, this`state, this`jobs
      ensures Valid()
      ensures objectPoolMemo == Memoised(ObjectPoolHandle())
      ensures rpcs == old(rpcs) + [Unlink(ObjectPoolHandle(), repository.raw)]
      ensures memberProjects == old(memberProjects)
      ensures NoOtherMember(memberProjects, repository.project) ==>
                state == Obsolete && jobs == old(jobs) + [DestroyWorker(id)]
      ensures !NoOtherMember(memberProjects, repository.project) ==>
                state == old(state) && jobs == old(jobs)
    {
      var pool := ObjectPool();
      rpcs := rpcs + [Unlink(pool, repository.raw)];
      if NoOtherMember(memberProjects, repository.project) {
        var marked := FireStateEvent(MarkObsolete);
      }
    }
  }

  /** Two pool records whose disk paths come from the same injective hashed
      storage layout and whose ids differ never share an on-disk object pool:
      their handles have different relative paths. */
  lemma {:induction false} DistinctPoolsDistinctObjectPools(p: PoolRepository, q: PoolRepository,
                                                            storage: PoolId -> string)
    requires forall x, y :: storage(x) == storage(y) ==> x == y
    requires p.diskPath == storage(p.id) && q.diskPath == storage(q.id)
    requires p.id != q.id
    ensures p.ObjectPoolHandle().relativePath != q.ObjectPoolHandle().relativePath
  {
    if p.ObjectPoolHandle().relativePath == q.ObjectPoolHandle().relativePath {
      PoolRelativePathInjective(p.diskPath, q.diskPath);
    }
  }

  /** A new pool is scheduled, its create job runs, and it is marked ready: the
      pool becomes joinable after one CreateWorker and one ScheduleJoinWorker job. */
  method CreationScenario(id: PoolId, source: Project, shardName: string, storage: PoolId -> string)
    returns (scheduled: bool, ready: bool, jobs: seq<Job>, joinable: bool)
    ensures scheduled && ready && joinable
    ensures jobs == [CreateWorker(id), ScheduleJoinWorker(id)]
  {
    var pool := new PoolRepository.Create(id, source, shardName, {source.id}, storage);
    scheduled := pool.FireStateEvent(Schedule);
    ready := pool.FireStateEvent(MarkReady);
    jobs := pool.jobs;
    joinable := pool.Joinable();
  }

  /** A pool of two member projects: unlinking the repository of one of them
      leaves the pool as it was, because the other member remains. A pool whose
      only member is the unlinked repository's project becomes obsolete and
      enqueues its DestroyWorker job (the second pool is a separate record, with
      its own id). */
  method UnlinkScenario(id: PoolId, source: Project, shardName: string, storage: PoolId -> string,
                        a: Repository, b: ProjectId)
    returns (stateWithTwo: PoolState, jobsWithTwo: seq<Job>,
             stateWithOne: PoolState, jobsWithOne: seq<Job>)
    requires a.project != b
    ensures stateWithTwo == Ready && jobsWithTwo == [CreateWorker(id), ScheduleJoinWorker(id)]
    ensures stateWithOne == Obsolete && jobsWithOne == [DestroyWorker(id + 1)]
  {
    var two := new PoolRepository.Create(id, source, shardName, {a.project, b}, storage);
    var scheduled := two.FireStateEvent(Schedule);
    var ready := two.FireStateEvent(MarkReady);
    two.UnlinkRepository(a);
    stateWithTwo, jobsWithTwo := two.state, two.jobs;

    var one := new PoolRepository.Create(id + 1, source, shardName, {a.project}, storage);
    one.UnlinkRepository(a);
    stateWithOne, jobsWithOne := one.state, one.jobs;
  }
}
