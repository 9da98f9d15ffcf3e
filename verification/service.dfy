/**
 * The service as one object that handles a request at a time. Its ghost `run` is a run of the
 * interleaving model that ends in the object's tables, so what holds of every run, and of every run
 * that serves one request at a time, holds of this object between any two calls.
 */
module Service {
  import opened Schema
  import opened Queries
  import opened Handlers
  import opened Runs
  import opened Serial
  import opened Solo
  import opened Store
  import opened Api
  import Answers

  class Server {
    const cfg: Config
    const store: Database
    var now: Time
    ghost var run: History

    ghost predicate Valid()
      reads this, store
    {
      && store.Valid()
      && OneAtATime(run) && SteadyClock(run) && Quiet(End(run))
      && End(run).db == store.Db() && End(run).now == now && End(run).cfg == cfg
    }

    constructor (cfg: Config, now: Time)
      ensures Valid() && fresh(store) && store.Db() == Seed() && run.steps == [] && this.cfg == cfg && this.now == now
    {
      this.cfg, this.now := cfg, now;
      store := new Database();
      new;
      run := History(System(cfg, now, Seed(), map[]), []);
    }

    method Wait(elapsed: nat)
      requires Valid()
      modifies this`now, this`run
      ensures Valid() && now == old(now) + elapsed && run == Extend(old(run), Tick(elapsed))
      ensures store.Db() == old(store.Db())
    {
      Extended(run, Tick(elapsed));
      Waited(run, elapsed);
      run := Extend(run, Tick(elapsed));
      now := now + elapsed;
    }

    /**
     * The tables afterwards are those at the end of a run in which thread `t` has served `req`, alone, with
     * the same result.
     */
    method Handle(ghost t: nat, req: Request, c: Choice) returns (out: Outcome)
      requires Valid() && t !in End(run).threads
      requires Presentable(End(run), req) && Unused(store.Db(), Begin(req, now), c)
      modifies store, this`run
      ensures Valid() && Continues(old(run), run, t)
      ensures |old(run).steps| < |run.steps| && run.steps[|old(run).steps|] == Spawn(t, req)
      ensures Serves(cfg, old(store.Db()), now, Begin(req, now), c, store.Db(), out)
      ensures End(run).threads == End(old(run)).threads[t := Running(Done(out))]
      ensures Answers.Served(run, |old(run).steps|, |run.steps|, t, req, out)
    {
      hide Begin, Alone, OneAtATime, SteadyClock, Quiet, Presentable, Continues, Listing, Constraints;
      Served(run);
      ghost var r' := ServeAlone(run, t, req, c);
      ghost var db := store.Db();
      out := Dispatch(req, c);
      assert Serves(cfg, db, now, Begin(req, now), c, store.Db(), out);
      run := r';
    }

    method Dispatch(req: Request, c: Choice) returns (out: Outcome)
      requires store.Valid() && Unused(store.Db(), Begin(req, now), c)
      modifies store
      ensures store.Valid()
      ensures Serves(cfg, old(store.Db()), now, Begin(req, now), c, store.Db(), out)
    {
      hide Begin, Serves, Listing, MayCreate, MayList, Constraints;
      match req
      case Register(email, emailOk, password, name) =>
        out := Api.Register(store, cfg, now, email, emailOk, password, name, c);
      case Login(email, password) => out := Api.Login(store, cfg, now, email, password, c);
      case Refresh(raw) => out := Api.Refresh(store, cfg, now, raw, c);
      case Logout(raw) => out := Api.Logout(store, cfg, now, raw, c);
      case VerifyEmail(raw) => out := Api.VerifyEmail(store, cfg, now, raw, c);
      case ResendVerification(bearer) => out := Api.ResendVerification(store, cfg, now, bearer, c);
      case ForgotPassword(email) => out := Api.ForgotPassword(store, cfg, now, email, c);
      case ResetPassword(raw, password) => out := Api.ResetPassword(store, cfg, now, raw, password, c);
      case GoogleCallback(profile) => out := Api.GoogleCallback(store, cfg, now, profile, c);
      case Administer(bearer, action) => out := Api.Administer(store, cfg, now, bearer, action, c);
      case CreateAdmin(email, emailOk, password) =>
        out := Api.CreateAdmin(store, cfg, now, email, emailOk, password, c);
    }
  }

  lemma {:induction false} Waited(r: History, elapsed: nat)
    requires OneAtATime(r) && SteadyClock(r) && Quiet(End(r))
    ensures var r' := Extend(r, Tick(elapsed)); OneAtATime(r') && SteadyClock(r') && Quiet(End(r'))
  {
    hide Step, Begin, Fresh, Presentable, Commit;
    var r', n := Extend(r, Tick(elapsed)), |r.steps|;
    Extended(r, Tick(elapsed));
    forall i {:trigger r'.steps[i]} | 0 <= i < n + 1 && (r'.steps[i].Spawn? || r'.steps[i].Tick?)
      ensures Quiet(r'.At(i))
    {
      SamePast(r, r', i);
      assert i < n ==> r'.steps[i] == r.steps[i];
    }
  }
}
