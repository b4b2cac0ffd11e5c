/** Favorites behind the middleware: the usecase refines a mathematical set of favorites. */
module FavoriteUsecase {
  import opened Prelude
  import opened AccountTables
  import opened AccountMachine
  import opened AccountSequential
  import opened Database
  import Jwt

  class Favorites {
    const db: Tables
    const env: Env

    constructor (db: Tables, env: Env)
      ensures this.db == db && this.env == env
    {
      this.db, this.env := db, env;
    }

    /** The gate in front of every favorites request. */
    method Authorize(token: Jwt.Token, now: nat) returns (uid: Option<Uuid>)
      ensures uid == Jwt.Validate(db.signed, token, env.jwt.accessSecret, now)
    {
      uid := Jwt.Validate(db.signed, token, env.jwt.accessSecret, now);
    }

    /** Without failures, and for an existing user, Add is insertion into a set that reports an element already there. */
    method Add(token: Jwt.Token, location: Uuid, io: seq<Input>, ghost c: CallId) returns (r: Result)
      requires |io| == 3
      modifies db
      ensures Solo(env, old(db.State()), c, Entry(AddFavorite(token, location)), io) == (db.State(), Done(r))
      ensures var uid := Jwt.Validate(old(db.signed), token, env.jwt.accessSecret, io[0].now);
              && (uid.None? <==> r == Failure(ErrUnauthorized))
              && (uid.Some? ==>
                    var f := Favorite(uid.value, location);
                    && (!io[1].choice.fails && f in old(db.favorites) <==> r == Failure(ErrAlreadyExists))
                    && (r == Success <==> && !io[1].choice.fails && !io[2].choice.fails
                                          && f !in old(db.favorites) && uid.value in old(db.users))
                    && (r == Success || r == Failure(ErrAlreadyExists) || r == Failure(ErrInternal))
                    && (r == Success ==> db.State().db == old(db.State().db).(favorites := old(db.favorites) + {f})))
      ensures r != Success ==> db.State() == old(db.State())
    {
      ghost var s := db.State();
      assert io[0..] == io;
      SoloAt(env, s, c, Entry(AddFavorite(token, location)), io, 0);
      var uid := Authorize(token, io[0].now);
      if uid.None? { return Failure(ErrUnauthorized); }
      var f := Favorite(uid.value, location);
      SoloAt(env, s, c, CheckFavorite(f), io, 1);
      var present := db.FavoriteExists(f, io[1].choice.fails);
      if present.None? { return Failure(ErrInternal); }
      if present.value { return Failure(ErrAlreadyExists); }
      SoloAt(env, s, c, Pc.InsertFavorite(f), io, 2);
      var ok := db.InsertFavorite(f, io[2].choice.fails, c);
      if !ok { return Failure(ErrInternal); }
      return Success;
    }

    /** Delete is removal from a set that reports an element not there. */
    method Delete(token: Jwt.Token, location: Uuid, io: seq<Input>, ghost c: CallId) returns (r: Result)
      requires |io| == 2
      modifies db
      ensures Solo(env, old(db.State()), c, Entry(Request.DeleteFavorite(token, location)), io) == (db.State(), Done(r))
      ensures var uid := Jwt.Validate(old(db.signed), token, env.jwt.accessSecret, io[0].now);
              && (uid.None? <==> r == Failure(ErrUnauthorized))
              && (uid.Some? ==>
                    var f := Favorite(uid.value, location);
                    && (!io[1].choice.fails && f !in old(db.favorites) <==> r == Failure(ErrNotFound))
                    && (!io[1].choice.fails && f in old(db.favorites) <==> r == Success)
                    && (io[1].choice.fails <==> r == Failure(ErrInternal))
                    && (r == Success ==> db.State().db == old(db.State().db).(favorites := old(db.favorites) - {f})))
      ensures r != Success ==> db.State() == old(db.State())
    {
      ghost var s := db.State();
      assert io[0..] == io;
      SoloAt(env, s, c, Entry(Request.DeleteFavorite(token, location)), io, 0);
      var uid := Authorize(token, io[0].now);
      if uid.None? { return Failure(ErrUnauthorized); }
      var f := Favorite(uid.value, location);
      SoloAt(env, s, c, RemoveFavorite(f), io, 1);
      var failed := db.DeleteFavorite(f, io[1].choice.fails, c);
      if failed.Some? { return Failure(failed.value); }
      return Success;
    }
  }
}
