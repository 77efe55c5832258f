/**
 * The one-time-password service: a process-wide table from phone number
 * to the last code sent and its expiry time, with the six-digit code
 * generator.  The clock (`Date.now()`, in milliseconds) and the random
 * draw (`Math.random()`) are parameters.
 */
module Otp {

  /** Ten minutes, in milliseconds. */
  const DureeValidite: int := 10 * 60 * 1000

  datatype Enregistrement = Enregistrement(code: string, expiresAt: int)

  /** The table after `storeOTP`. */
  function Stocker(store: map<string, Enregistrement>, telephone: string, otp: string, maintenant: int)
    : (r: map<string, Enregistrement>)
    ensures r.Keys == store.Keys + {telephone}
    ensures r[telephone].code == otp && r[telephone].expiresAt - maintenant == DureeValidite
    ensures forall k :: k in store && k != telephone ==> r[k] == store[k]
  {
    store[telephone := Enregistrement(otp, maintenant + DureeValidite)]
  }

  /** The answer of `verifyOTP` and the table it leaves: no record, false;
      an expired record (strictly before `maintenant`), false and the
      record dropped; otherwise whether the codes are equal, the table
      untouched. */
  function Verifier(store: map<string, Enregistrement>, telephone: string, otp: string, maintenant: int)
    : (r: (bool, map<string, Enregistrement>))
    ensures r.0 <==> telephone in store && maintenant <= store[telephone].expiresAt && store[telephone].code == otp
    ensures telephone !in store ==> r.1 == store
    ensures telephone in store && store[telephone].expiresAt < maintenant ==> r.1 == store - {telephone}
    ensures telephone in store && maintenant <= store[telephone].expiresAt ==> r.1 == store
  {
    if telephone !in store then (false, store)
    else
      var record := store[telephone];
      if record.expiresAt < maintenant then (false, store - {telephone})
      else (record.code == otp, store)
  }

  /** A code stored at `envoi` is accepted exactly when it is given back
      within ten minutes, the last millisecond included; after that it is
      refused and dropped. */
  lemma StoreThenVerify(store: map<string, Enregistrement>, telephone: string, code: string, otp: string,
                        envoi: int, maintenant: int)
    requires envoi <= maintenant
    ensures var s := Stocker(store, telephone, code, envoi);
      && (maintenant <= envoi + DureeValidite ==> Verifier(s, telephone, otp, maintenant) == (code == otp, s))
      && (maintenant > envoi + DureeValidite ==> Verifier(s, telephone, otp, maintenant) == (false, store - {telephone}))
  {
    var s := Stocker(store, telephone, code, envoi);
    assert s - {telephone} == store - {telephone};
  }

  /** Storing or verifying one phone's code leaves every other phone's
      record as it was. */
  lemma OtherPhonesUnchanged(store: map<string, Enregistrement>, telephone: string, autre: string,
                             otp: string, maintenant: int)
    requires autre != telephone
    ensures var s := Stocker(store, telephone, otp, maintenant);
      (autre in s <==> autre in store) && (autre in store ==> s[autre] == store[autre])
    ensures var s := Verifier(store, telephone, otp, maintenant).1;
      (autre in s <==> autre in store) && (autre in store ==> s[autre] == store[autre])
  {
  }

  /** A second code sent to the same phone replaces the first: the first is
      refused from then on. */
  lemma NewCodeReplacesOld(store: map<string, Enregistrement>, telephone: string, premier: string,
                           second: string, t1: int, t2: int, maintenant: int)
    requires premier != second && t2 <= maintenant
    ensures !Verifier(Stocker(Stocker(store, telephone, premier, t1), telephone, second, t2),
                      telephone, premier, maintenant).0
  {
  }

  /** Once dropped, a record stays dropped: removing is idempotent and
      verifying an absent phone changes nothing. */
  lemma RemoveIdempotent(store: map<string, Enregistrement>, telephone: string, otp: string, maintenant: int)
    ensures (store - {telephone}) - {telephone} == store - {telephone}
    ensures Verifier(store - {telephone}, telephone, otp, maintenant) == (false, store - {telephone})
  {
  }

  class OtpStore {
    /** The table `otpStore`, from phone number to its record. */
    var otpStore: map<string, Enregistrement>

    constructor()
      ensures otpStore == map[]
    {
      otpStore := map[];
    }

    /** `storeOTP`: set or replace the phone's record, valid ten minutes. */
    method StoreOTP(telephone: string, otp: string, maintenant: int)
      modifies this
      ensures otpStore == Stocker(old(otpStore), telephone, otp, maintenant)
      ensures otpStore[telephone].expiresAt == maintenant + DureeValidite
    {
      otpStore := otpStore[telephone := Enregistrement(otp, maintenant + DureeValidite)];
    }

    /** `verifyOTP`. */
    method VerifyOTP(telephone: string, otp: string, maintenant: int) returns (ok: bool)
      modifies this
      ensures (ok, otpStore) == Verifier(old(otpStore), telephone, otp, maintenant)
    {
      if telephone !in otpStore {
        return false;
      }
      var record := otpStore[telephone];
      if record.expiresAt < maintenant {
        otpStore := otpStore - {telephone};
        return false;
      }
      ok := record.code == otp;
    }

    /** `removeOTP`: drop the phone's record, if any. */
    method RemoveOTP(telephone: string)
      modifies this
      ensures otpStore == old(otpStore) - {telephone}
      ensures telephone !in otpStore
    {
      otpStore := otpStore - {telephone};
    }
  }

  /** The decimal digits of `n`, most significant first, as `toString` writes
      a non-negative integer. */
  function Decimal(n: nat): (s: string)
    ensures |s| >= 1
    ensures forall i :: 0 <= i < |s| ==> '0' <= s[i] <= '9'
  {
    if n < 10 then [ChiffreDe(n)] else Decimal(n / 10) + [ChiffreDe(n % 10)]
  }

  function ChiffreDe(d: nat): (c: char)
    requires d < 10
    ensures '0' <= c <= '9'
  {
    (('0' as int) + d) as char
  }

  /** The value of a string of decimal digits. */
  function Valeur(s: string): nat
    requires forall i :: 0 <= i < |s| ==> '0' <= s[i] <= '9'
  {
    if s == [] then 0 else Valeur(s[..|s| - 1]) * 10 + (s[|s| - 1] as int - '0' as int)
  }

  /** Reading back the digits gives the number. */
  lemma {:induction false} DecimalRoundTrip(n: nat)
    ensures Valeur(Decimal(n)) == n
  {
    if n >= 10 {
      DecimalRoundTrip(n / 10);
      var s := Decimal(n);
      assert s[..|s| - 1] == Decimal(n / 10);
    }
  }

  /** Dropping the last digit: one digit fewer, the same leading digit. */
  lemma DecimalInit(n: nat)
    requires n >= 10
    ensures |Decimal(n)| == |Decimal(n / 10)| + 1
    ensures Decimal(n)[0] == Decimal(n / 10)[0]
  {
  }

  /** A six-digit number is written with six digits, the first not '0'. */
  lemma DecimalSixDigits(n: nat)
    requires 100000 <= n <= 999999
    ensures |Decimal(n)| == 6 && '1' <= Decimal(n)[0] <= '9'
  {
    var n1 := n / 10;
    var n2 := n1 / 10;
    var n3 := n2 / 10;
    var n4 := n3 / 10;
    var n5 := n4 / 10;
    assert 10000 <= n1 <= 99999;
    assert 1000 <= n2 <= 9999;
    assert 100 <= n3 <= 999;
    assert 10 <= n4 <= 99;
    assert 1 <= n5 <= 9;
    DecimalInit(n);
    DecimalInit(n1);
    DecimalInit(n2);
    DecimalInit(n3);
    DecimalInit(n4);
  }

  /** `generateOTP` for a draw of `Math.random()`: a six-digit code, never
      with a leading zero, whose value is 100000 to 999999. */
  function GenerateOTP(tirage: real): (otp: string)
    requires 0.0 <= tirage < 1.0
    ensures |otp| == 6 && '1' <= otp[0] <= '9'
    ensures forall i :: 0 <= i < |otp| ==> '0' <= otp[i] <= '9'
    ensures 100000 <= Valeur(otp) <= 999999
  {
    var n := (100000.0 + tirage * 900000.0).Floor;
    assert 100000 <= n <= 999999;
    DecimalSixDigits(n);
    DecimalRoundTrip(n);
    Decimal(n)
  }

  /** Every six-digit value is reachable: the draw (n - 100000) / 900000
      gives n. */
  lemma EveryCodeReachable(n: nat)
    requires 100000 <= n <= 999999
    ensures var tirage := (n - 100000) as real / 900000.0;
      0.0 <= tirage < 1.0 && Valeur(GenerateOTP(tirage)) == n
  {
    var tirage := (n - 100000) as real / 900000.0;
    assert 100000.0 + tirage * 900000.0 == n as real;
    DecimalRoundTrip(n);
  }
}
