/**
 * `src/app/api/profile/route.ts`: `GET /api/profile` reads the caller's row
 * of the `profiles` table and `PUT /api/profile` rewrites its name, avatar
 * and update time. The table is a map from id (its primary key) to row.
 */
module ProfileRoute {
  import opened Wrappers
  import opened Types
  import opened ErrorHandler
  import opened AuthMiddleware

  const PROFILE_NOT_FOUND := "Profile not found"
  const UPDATE_FAILED := "Failed to update profile"

  /** A parsed `PUT` body: malformed JSON, `null` (reading a field of it
      throws), or the two text fields, each absent or a string. */
  datatype ProfileBodyIn = Malformed | NullJson | Fields(fullName: Option<string>, avatarUrl: Option<string>)

  /** The `updateData` record. */
  datatype ProfileUpdate = ProfileUpdate(fullName: Option<string>, avatarUrl: Option<string>, updatedAt: int)

  /** `value || null` on an optional string: the empty string becomes `null`. */
  function NullIfFalsy(v: Option<string>): (r: Option<string>)
    ensures r.Some? <==> v.Some? && v.value != ""
    ensures r.Some? ==> r.value == v.value
  {
    if v.Some? && v.value != "" then v else None
  }

  /** `updateData`: exactly the name, the avatar and the current time. */
  function UpdateData(fullName: Option<string>, avatarUrl: Option<string>, now: int): (u: ProfileUpdate)
    ensures u.fullName == NullIfFalsy(fullName) && u.avatarUrl == NullIfFalsy(avatarUrl)
    ensures u.updatedAt == now
  {
    ProfileUpdate(NullIfFalsy(fullName), NullIfFalsy(avatarUrl), now)
  }

  /** `.update(updateData)` on one row: the three columns change, id, email
      and creation time stay. */
  function ApplyUpdate(p: Profile, u: ProfileUpdate): (q: Profile)
    ensures q.id == p.id && q.email == p.email && q.createdAt == p.createdAt
    ensures q.fullName == u.fullName && q.avatarUrl == u.avatarUrl && q.updatedAt == u.updatedAt
  {
    p.(fullName := u.fullName, avatarUrl := u.avatarUrl, updatedAt := u.updatedAt)
  }

  /** An update applied twice is applied once. */
  lemma ApplyUpdateIdempotent(p: Profile, u: ProfileUpdate)
    ensures ApplyUpdate(ApplyUpdate(p, u), u) == ApplyUpdate(p, u)
  {
  }

  class ProfilesTable {
    var profiles: map<string, Profile>

    constructor (initial: map<string, Profile>)
      ensures profiles == initial
    {
      profiles := initial;
    }

    /** `GET`: 401 on an authentication error; the caller's own row with 200;
        404 "Profile not found" when there is none or the database fails. */
    method Get(authorization: Option<string>, getUser: string -> UserLookup, storeFails: bool)
      returns (r: Response)
      ensures AuthenticateRequest(authorization, getUser).error.Some? ==>
                r == Response(401, ErrorBody(AuthenticateRequest(authorization, getUser).error.value))
      ensures AuthenticateRequest(authorization, getUser).error.None? ==>
                var id := AuthenticateRequest(authorization, getUser).user.value.id;
                if id in profiles && !storeFails then r == Response(200, ProfileBody(profiles[id]))
                else r == Response(404, ErrorBody(PROFILE_NOT_FOUND))
    {
      var auth := AuthenticateRequest(authorization, getUser);
      if auth.error.Some? {
        return Response(401, ErrorBody(auth.error.value));
      }
      var id := auth.user.value.id;
      if storeFails || id !in profiles {
        return HandleApiError(Raise(PROFILE_NOT_FOUND, 404));
      }
      return Response(200, ProfileBody(profiles[id]));
    }

    /** `PUT`: 401 on an authentication error; 500 for a body that cannot be
        read, and 500 "Failed to update profile" when the caller has no row or
        the database fails — all with the table unchanged. Otherwise only the
        caller's row changes, to the update of it, which is returned with 200. */
    method Put(authorization: Option<string>, getUser: string -> UserLookup,
               body: ProfileBodyIn, now: int, storeFails: bool) returns (r: Response)
      modifies this
      ensures AuthenticateRequest(authorization, getUser).error.Some? ==>
                r == Response(401, ErrorBody(AuthenticateRequest(authorization, getUser).error.value))
      ensures AuthenticateRequest(authorization, getUser).error.None? && !body.Fields? ==>
                r == Response(500, ErrorBody(INTERNAL_SERVER_ERROR))
      ensures AuthenticateRequest(authorization, getUser).error.None? && body.Fields? ==>
                var id := AuthenticateRequest(authorization, getUser).user.value.id;
                if storeFails || id !in old(profiles) then r == Response(500, ErrorBody(UPDATE_FAILED))
                else r.status == 200
      ensures r.status != 200 ==> profiles == old(profiles)
      ensures r.status == 200 ==>
                var id := AuthenticateRequest(authorization, getUser).user.value.id;
                && body.Fields? && id in old(profiles)
                && var q := ApplyUpdate(old(profiles)[id], UpdateData(body.fullName, body.avatarUrl, now));
                && profiles == old(profiles)[id := q]
                && r == Response(200, ProfileBody(q))
    {
      var auth := AuthenticateRequest(authorization, getUser);
      if auth.error.Some? {
        return Response(401, ErrorBody(auth.error.value));
      }
      var id := auth.user.value.id;
      if !body.Fields? {
        return HandleApiError(Other);
      }
      var update := UpdateData(body.fullName, body.avatarUrl, now);
      if storeFails || id !in profiles {
        return HandleApiError(Raise(UPDATE_FAILED, 500));
      }
      var q := ApplyUpdate(profiles[id], update);
      profiles := profiles[id := q];
      return Response(200, ProfileBody(q));
    }
  }
}
