/**
 * The authentication provider of contexts/auth-context.tsx: the signed-in
 * Firebase user, the user's profile record from the `users` collection, and
 * a loading flag. Every Firebase call is a parameter carrying its outcome.
 */
module AuthContext {
  import opened Wrappers
  import opened Text
  import opened Values

  /** The part of a Firebase `User` the provider reads. */
  datatype FirebaseUser = FirebaseUser(uid: string, displayName: Option<string>, email: Option<string>)

  /** What `getDoc` yields: an existing document, a missing one, or an exception. */
  datatype DocRead = Exists(data: Record) | Missing | ReadFailed

  /** How an asynchronous provider function ends. */
  datatype Completion = Done | Skipped | Rejected

  /** `{ ...userData, ...data }`: every key of the patch takes the patch's
      value, and every other key of the stored record keeps its value; a
      null record spreads as an empty object. */
  function Merge(base: Option<Record>, patch: Record): (r: Record)
    ensures forall k :: k in r <==> k in patch || (base.Some? && k in base.value)
    ensures forall k :: k in patch ==> r[k] == patch[k]
    ensures forall k :: base.Some? && k in base.value && k !in patch ==> r[k] == base.value[k]
  {
    (if base.Some? then base.value else map[]) + patch
  }

  /** Patching twice with the same data is the same as patching once. */
  lemma MergeIdempotent(base: Option<Record>, patch: Record)
    ensures Merge(Some(Merge(base, patch)), patch) == Merge(base, patch)
  {
  }

  /** Patches applied one after the other add up to one patch with the later
      values winning. */
  lemma MergeCompose(base: Option<Record>, p1: Record, p2: Record)
    ensures Merge(Some(Merge(base, p1)), p2) == Merge(base, p1 + p2)
  {
  }

  /** `"stu_" + Date.now()`. */
  function StudentId(now: nat): (r: string)
    ensures |r| > 4 && r[..4] == "stu_"
    ensures forall i :: 4 <= i < |r| ==> '0' <= r[i] <= '9'
  {
    "stu_" + NatToString(now)
  }

  /** The number behind a student id can be read back from it. */
  lemma StudentIdEncodesTime(now: nat)
    ensures DecimalValue(StudentId(now)[4..]) == now
  {
    assert StudentId(now)[4..] == NatToString(now);
    NatToStringValue(now);
  }

  /** `string | null` as a record value. */
  function NullableStr(s: Option<string>): (r: Value)
    ensures s.Some? ==> r == Str(s.value)
    ensures s.None? ==> r == Null
  {
    if s.Some? then Str(s.value) else Null
  }

  /** The record a new account starts with. `idTime` is the clock read of
      `Date.now()` and `createdAt` that of `new Date()`: two separate reads. */
  function NewUserRecord(u: FirebaseUser, name: Value, idTime: nat, createdAt: nat): (r: Record)
    ensures r.Keys == {"uid", "id", "name", "email", "createdAt"}
    ensures r["uid"] == Str(u.uid) && r["name"] == name
    ensures r["id"] == Str(StudentId(idTime)) && r["email"] == NullableStr(u.email)
    ensures r["createdAt"] == Time(createdAt)
  {
    map["uid" := Str(u.uid), "id" := Str(StudentId(idTime)), "name" := name,
        "email" := NullableStr(u.email), "createdAt" := Time(createdAt)]
  }

  /** `firebaseUser.displayName ?? undefined`. */
  function ProviderName(u: FirebaseUser): (r: Value)
    ensures u.displayName.Some? ==> r == Str(u.displayName.value)
    ensures u.displayName.None? ==> r == Undefined
  {
    if u.displayName.Some? then Str(u.displayName.value) else Undefined
  }

  /** What `useAuth` returns or throws. */
  datatype Guarded<T> = Provided(value: T) | Thrown(message: string)

  /** `useAuth`: the context, or an error outside an `AuthProvider`. */
  function UseAuth<T>(context: Option<T>): (r: Guarded<T>)
    ensures context.Some? <==> r.Provided?
    ensures context.Some? ==> r.value == context.value
    ensures context.None? ==> r == Thrown("useAuth must be used within an AuthProvider")
  {
    if context.Some? then Provided(context.value) else Thrown("useAuth must be used within an AuthProvider")
  }

  class AuthProviderState {
    var user: Option<FirebaseUser>
    var userData: Option<Record>
    var loading: bool

    /** The provider starts with nobody signed in and loading. */
    constructor ()
      ensures user == None && userData == None && loading
    {
      user := None;
      userData := None;
      loading := true;
    }

    /** `fetchUserData`: an existing document replaces the record; a missing
        document or a failed read leaves it alone. */
    method FetchUserData(read: DocRead)
      modifies this`userData
      ensures read.Exists? ==> userData == Some(read.data)
      ensures !read.Exists? ==> userData == old(userData)
    {
      if read.Exists? {
        userData := Some(read.data);
      }
    }

    /** The `onAuthStateChanged` callback: a signed-in user is stored and
        their record read; a sign-out clears both. Loading always ends. */
    method OnAuthStateChanged(firebaseUser: Option<FirebaseUser>, read: DocRead)
      modifies this
      ensures user == firebaseUser
      ensures firebaseUser.None? ==> userData == None
      ensures firebaseUser.Some? && read.Exists? ==> userData == Some(read.data)
      ensures firebaseUser.Some? && !read.Exists? ==> userData == old(userData)
      ensures !loading
    {
      if firebaseUser.Some? {
        user := firebaseUser;
        FetchUserData(read);
      } else {
        user := None;
        userData := None;
      }
      loading := false;
    }

    /** `signUp`: when account creation, the profile update and the write of
        the new record all succeed, the new record becomes `userData`; any
        failure rejects with nothing changed. */
    method SignUp(displayName: string, account: Option<FirebaseUser>, profileUpdated: bool, stored: bool, idTime: nat, createdAt: nat)
      returns (result: Completion)
      modifies this`userData
      ensures result == Done <==> account.Some? && profileUpdated && stored
      ensures result != Done ==> result == Rejected && userData == old(userData)
      ensures result == Done ==> userData == Some(NewUserRecord(account.value, Str(displayName), idTime, createdAt))
    {
      if account.None? || !profileUpdated || !stored {
        return Rejected;
      }
      userData := Some(NewUserRecord(account.value, Str(displayName), idTime, createdAt));
      result := Done;
    }

    /** `signInWithGoogle` and `signInWithMicrosoft`: after the popup, a
        record is created and stored only when none exists yet. */
    method ProviderSignIn(popup: Option<FirebaseUser>, read: DocRead, stored: bool, idTime: nat, createdAt: nat)
      returns (result: Completion)
      modifies this`userData
      ensures popup.None? || read.ReadFailed? ==> result == Rejected && userData == old(userData)
      ensures popup.Some? && read.Exists? ==> result == Done && userData == old(userData)
      ensures popup.Some? && read.Missing? && stored ==>
        result == Done && userData == Some(NewUserRecord(popup.value, ProviderName(popup.value), idTime, createdAt))
      ensures popup.Some? && read.Missing? && !stored ==> result == Rejected && userData == old(userData)
    {
      if popup.None? || read.ReadFailed? {
        return Rejected;
      }
      result := Done;
      if read.Missing? {
        if !stored {
          return Rejected;
        }
        userData := Some(NewUserRecord(popup.value, ProviderName(popup.value), idTime, createdAt));
      }
    }

    /** `updateUserData`: without a user nothing happens; otherwise the merged
        record is written and, once the write succeeds, stored. */
    method UpdateUserData(patch: Record, stored: bool) returns (result: Completion)
      modifies this`userData
      ensures user.None? ==> result == Skipped && userData == old(userData)
      ensures user.Some? && stored ==> result == Done && userData == Some(Merge(old(userData), patch))
      ensures user.Some? && !stored ==> result == Rejected && userData == old(userData)
    {
      if user.None? {
        return Skipped;
      }
      var updated := Merge(userData, patch);
      if !stored {
        return Rejected;
      }
      userData := Some(updated);
      result := Done;
    }
  }
}
