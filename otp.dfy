/** The one-time-password service (src/utils/otp.ts): one pending code per
    e-mail address, valid for ten minutes and for at most three wrong
    guesses. The clock (`Date.now()`) is passed in as `now`, in
    milliseconds. */
module Otp {
  import opened Basics

  /** OTP_EXPIRY: ten minutes, in milliseconds. */
  const OtpExpiry: int := 10 * 60 * 1000
  /** MAX_ATTEMPTS */
  const MaxAttempts: nat := 3

  /** What the store keeps for one address. */
  datatype Entry = Entry(otp: string, expiresAt: int, attempts: nat)

  /** The outcomes of `verifyOTP`; only `Verified` has `success: true`.
      `Invalid` carries the number of attempts the message says remain. */
  datatype Verdict = NoOtp | Expired | TooManyAttempts | Verified | Invalid(remaining: int)

  /** One call of `verifyOTP` on the entry stored for an address: the
      verdict and what is stored afterwards. Expiry is checked first, then
      the attempt count, then the code; a wrong code counts one attempt. */
  function Verify(stored: Option<Entry>, input: string, now: int): (r: (Verdict, Option<Entry>))
    ensures r.0 == Verified <==>
      stored.Some? && now <= stored.value.expiresAt && stored.value.attempts < MaxAttempts && input == stored.value.otp
    ensures r.0 == Expired <==> stored.Some? && now > stored.value.expiresAt
    ensures r.0 == NoOtp <==> stored.None?
    ensures r.0 == TooManyAttempts <==>
      stored.Some? && now <= stored.value.expiresAt && stored.value.attempts >= MaxAttempts
    ensures r.0.Invalid? <==>
      stored.Some? && now <= stored.value.expiresAt && stored.value.attempts < MaxAttempts && input != stored.value.otp
    ensures r.1.Some? <==> r.0.Invalid?
    ensures r.0.Invalid? ==>
      && stored.Some? && input != stored.value.otp
      && r.1.value == stored.value.(attempts := stored.value.attempts + 1)
      && r.0.remaining == MaxAttempts - r.1.value.attempts
      && r.1.value.attempts <= MaxAttempts
  {
    match stored
    case None => (NoOtp, None)
    case Some(e) =>
      if now > e.expiresAt then (Expired, None)
      else if e.attempts >= MaxAttempts then (TooManyAttempts, None)
      else if e.otp == input then (Verified, None)
      else
        var e' := e.(attempts := e.attempts + 1);
        (Invalid(MaxAttempts - e'.attempts), Some(e'))
  }

  /** The entry stored for an address, if any. */
  function Slot(storage: map<string, Entry>, email: string): Option<Entry> {
    if email in storage then Some(storage[email]) else None
  }

  /** The store with the slot of `email` set to `slot`. */
  function Put(storage: map<string, Entry>, email: string, slot: Option<Entry>): (s: map<string, Entry>)
    ensures Slot(s, email) == slot
    ensures forall other | other != email :: Slot(s, other) == Slot(storage, other)
  {
    match slot
    case None => storage - {email}
    case Some(e) => storage[email := e]
  }

  /** A call of `verifyOTP` with the code typed and the time it is made. */
  datatype Attempt = Attempt(input: string, now: int)

  /** The verdicts of successive `verifyOTP` calls for one address with no
      new code stored in between. */
  function Replay(stored: Option<Entry>, attempts: seq<Attempt>): (vs: seq<Verdict>)
    ensures |vs| == |attempts|
    decreases |attempts|
  {
    if attempts == [] then []
    else
      var r := Verify(stored, attempts[0].input, attempts[0].now);
      [r.0] + Replay(r.1, attempts[1..])
  }

  function WrongGuesses(vs: seq<Verdict>): nat {
    if vs == [] then 0 else (if vs[0].Invalid? then 1 else 0) + WrongGuesses(vs[1..])
  }

  function Successes(vs: seq<Verdict>): nat {
    if vs == [] then 0 else (if vs[0] == Verified then 1 else 0) + Successes(vs[1..])
  }

  /** The attempts an entry has left. */
  function Budget(stored: Option<Entry>): nat {
    if stored.Some? && stored.value.attempts <= MaxAttempts then MaxAttempts - stored.value.attempts else 0
  }

  /** Without a code stored, every call answers "No OTP found". */
  lemma {:induction false} ReplayWithoutCode(attempts: seq<Attempt>)
    ensures forall k | 0 <= k < |attempts| :: Replay(None, attempts)[k] == NoOtp
  {
    if attempts != [] {
      ReplayWithoutCode(attempts[1..]);
      assert Replay(None, attempts) == [NoOtp] + Replay(None, attempts[1..]);
    }
  }

  /** A stored code is accepted at most once, however many calls follow. */
  lemma {:induction false} AtMostOneSuccess(stored: Option<Entry>, attempts: seq<Attempt>)
    ensures Successes(Replay(stored, attempts)) <= 1
    decreases |attempts|
  {
    if attempts != [] {
      var r := Verify(stored, attempts[0].input, attempts[0].now);
      var vs := Replay(stored, attempts);
      assert vs[1..] == Replay(r.1, attempts[1..]);
      if r.0 == Verified {
        NoSuccessWithoutCode(attempts[1..]);
      } else {
        AtMostOneSuccess(r.1, attempts[1..]);
      }
    }
  }

  lemma {:induction false} NoSuccessWithoutCode(attempts: seq<Attempt>)
    ensures Successes(Replay(None, attempts)) == 0
  {
    if attempts != [] {
      var vs := Replay(None, attempts);
      assert vs[1..] == Replay(None, attempts[1..]);
      NoSuccessWithoutCode(attempts[1..]);
    }
  }

  /** However the calls are spread in time, no more wrong codes are
      answered "Invalid OTP" than the attempts the entry has left: three
      for a fresh code. */
  lemma {:induction false} WrongGuessesBounded(stored: Option<Entry>, attempts: seq<Attempt>)
    ensures WrongGuesses(Replay(stored, attempts)) <= Budget(stored)
    decreases |attempts|
  {
    if attempts != [] {
      var r := Verify(stored, attempts[0].input, attempts[0].now);
      var vs := Replay(stored, attempts);
      assert vs[1..] == Replay(r.1, attempts[1..]);
      WrongGuessesBounded(r.1, attempts[1..]);
    }
  }

  /** After three wrong codes, even the right code is refused (while the
      code has not expired) and the entry is dropped. */
  lemma LockedOutAfterThreeWrong(e: Entry, wrong: seq<string>, times: seq<int>, input: string, now: int)
    requires e.attempts == 0 && |wrong| == 3 && |times| == 3
    requires forall k | 0 <= k < 3 :: wrong[k] != e.otp && times[k] <= e.expiresAt
    requires now <= e.expiresAt
    ensures Verify(Some(e), wrong[0], times[0]).0 == Invalid(2)
    ensures
      var s1 := Verify(Some(e), wrong[0], times[0]).1;
      var s2 := Verify(s1, wrong[1], times[1]).1;
      var s3 := Verify(s2, wrong[2], times[2]).1;
      && Verify(s1, wrong[1], times[1]).0 == Invalid(1)
      && Verify(s2, wrong[2], times[2]).0 == Invalid(0)
      && Verify(s3, input, now) == (TooManyAttempts, None)
  {
  }

  /** The in-memory `otpStorage` and the static methods of `OTPService`. */
  class OtpService {
    var storage: map<string, Entry>

    constructor ()
      ensures storage == map[]
    {
      storage := map[];
    }

    /** `storeOTP`: a new code replaces any earlier one for the address,
        with a fresh expiry and no attempts counted. */
    method StoreOtp(email: string, otp: string, now: int)
      modifies this`storage
      ensures storage == old(storage)[email := Entry(otp, now + OtpExpiry, 0)]
    {
      storage := storage[email := Entry(otp, now + OtpExpiry, 0)];
    }

    /** `verifyOTP` */
    method VerifyOtp(email: string, input: string, now: int) returns (v: Verdict)
      modifies this`storage
      ensures (v, Slot(storage, email)) == Verify(Slot(old(storage), email), input, now)
      ensures storage == Put(old(storage), email, Verify(Slot(old(storage), email), input, now).1)
      ensures email !in old(storage) ==> v == NoOtp && storage == old(storage)
    {
      if email !in storage {
        return NoOtp;
      }
      var stored := storage[email];
      if now > stored.expiresAt {
        storage := storage - {email};
        return Expired;
      }
      if stored.attempts >= MaxAttempts {
        storage := storage - {email};
        return TooManyAttempts;
      }
      if stored.otp == input {
        storage := storage - {email};
        return Verified;
      }
      stored := stored.(attempts := stored.attempts + 1);
      storage := storage[email := stored];
      v := Invalid(MaxAttempts - stored.attempts);
    }

    /** `clearOTP` */
    method ClearOtp(email: string)
      modifies this`storage
      ensures storage == old(storage) - {email}
    {
      storage := storage - {email};
    }

    /** `hasValidOTP`: whether an unexpired code is stored; an expired one
        is dropped on the way. */
    method HasValidOtp(email: string, now: int) returns (b: bool)
      modifies this`storage
      ensures b <==> email in old(storage) && now <= old(storage)[email].expiresAt
      ensures storage == if email in old(storage) && !b then old(storage) - {email} else old(storage)
    {
      if email !in storage {
        return false;
      }
      if now > storage[email].expiresAt {
        storage := storage - {email};
        return false;
      }
      return true;
    }

    /** `getRemainingTime`: whole seconds until the stored code expires,
        0 when there is none or it has expired. */
    method GetRemainingTime(email: string, now: int) returns (seconds: nat)
      ensures email !in storage || storage[email].expiresAt <= now ==> seconds == 0
      ensures email in storage && now < storage[email].expiresAt ==>
        seconds * 1000 <= storage[email].expiresAt - now < (seconds + 1) * 1000
    {
      if email !in storage {
        return 0;
      }
      var remaining := storage[email].expiresAt - now;
      seconds := if remaining > 0 then remaining / 1000 else 0;
    }
  }

  /** A code just stored is valid for exactly ten minutes: `verifyOTP`
      accepts it at any time up to 600000 milliseconds after it was stored
      and refuses it as expired after. */
  lemma FreshCodeLifetime(otp: string, stored: int, later: int)
    ensures Verify(Some(Entry(otp, stored + OtpExpiry, 0)), otp, later).0 ==
      if later <= stored + 600000 then Verified else Expired
  {
  }
}
