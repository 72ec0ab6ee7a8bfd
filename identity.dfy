/**
 * The controller's serial number (identity.cpp): eight decimal digits read
 * once from a dedicated flash partition. A stored value that is not eight
 * digits is replaced by the empty string and remembered as such; a missing
 * partition or a failed read is reported as "" and retried on the next call.
 */
module Identity {
  import opened Wrappers
  import Commons

  const SERIAL_LEN: nat := 8

  /** `isdigit`. */
  predicate IsDigit(c: char)
  {
    '0' <= c <= '9'
  }

  /** What `isValidSerial` accepts: present, eight characters long, and all of them digits. */
  predicate ValidSerial(serial: string)
  {
    |serial| == SERIAL_LEN && Commons.AllDigits(serial)
  }

  /** The characters a C string holds: everything before the first NUL. */
  function CString(buf: seq<char>): (s: string)
    ensures |s| <= |buf| && s == buf[..|s|]
    ensures '\0' !in s
    ensures |s| < |buf| ==> buf[|s|] == '\0'
  {
    if |buf| == 0 || buf[0] == '\0' then [] else [buf[0]] + CString(buf[1..])
  }

  /**
   * `isValidSerial`: a null pointer (`None`) is invalid, any length other
   * than eight is invalid, and eight characters are valid iff each is a
   * decimal digit.
   */
  method IsValidSerial(serial: Option<string>) returns (ok: bool)
    ensures ok <==> serial.Some? && ValidSerial(serial.value)
  {
    if serial.None? {
      return false;
    }
    var s := serial.value;
    if |s| != SERIAL_LEN {
      return false;
    }
    var i := 0;
    while i < SERIAL_LEN
      invariant 0 <= i <= SERIAL_LEN
      invariant forall j :: 0 <= j < i ==> IsDigit(s[j])
    {
      if !IsDigit(s[i]) {
        return false;
      }
      i := i + 1;
    }
    return true;
  }

  /** The outcome of looking up and reading the serial partition. */
  datatype PartitionRead =
    | NoPartition
    | ReadFailed
      /** The first `SERIAL_LEN` bytes of the partition. */
    | ReadOk(bytes: seq<char>)

  /** The string the numeric conversion of the status report reads: `strtoul` of a valid serial or of "". */
  function SerialNumber(serial: string): (n: nat)
    requires serial == "" || ValidSerial(serial)
    ensures serial == "" ==> n == 0
    ensures n < 100_000_000
  {
    if serial == "" then 0
    else
      SerialValueBound(serial);
      assert Pow10(SERIAL_LEN) == 100_000_000;
      Commons.DecimalValue(serial)
  }

  /** A run of `k` digits is worth less than `10^k`. */
  lemma {:induction false} SerialValueBound(d: string)
    requires Commons.AllDigits(d)
    ensures Commons.DecimalValue(d) < Pow10(|d|)
    decreases |d|
  {
    if |d| > 0 {
      SerialValueBound(d[..|d| - 1]);
    }
  }

  function Pow10(k: nat): nat
  {
    if k == 0 then 1 else 10 * Pow10(k - 1)
  }

  /** The static buffer and flag of `getSerialNum`. */
  class SerialStore {
    var serialBuf: string
    var isInitialized: bool

    /** Once read, the buffer holds eight digits or nothing. */
    ghost predicate Valid()
      reads this
    {
      isInitialized ==> serialBuf == "" || ValidSerial(serialBuf)
    }

    constructor ()
      ensures Valid() && !isInitialized && serialBuf == ""
    {
      serialBuf := "";
      isInitialized := false;
    }

    /**
     * `getSerialNum`, given what the partition lookup and read would
     * return. The first successful read decides the value for good.
     */
    method GetSerialNum(read: PartitionRead) returns (serial: string)
      requires Valid()
      requires read.ReadOk? ==> |read.bytes| == SERIAL_LEN
      modifies this
      ensures Valid()
      ensures serial == "" || ValidSerial(serial)
      ensures old(isInitialized) ==> serial == old(serialBuf) && isInitialized && serialBuf == old(serialBuf)
      ensures !old(isInitialized) && !read.ReadOk? ==> serial == "" && !isInitialized
      ensures !old(isInitialized) && read.ReadOk? ==>
        isInitialized && serial == serialBuf
        && serialBuf == (if ValidSerial(CString(read.bytes)) then CString(read.bytes) else "")
    {
      if !isInitialized {
        match read {
          case NoPartition =>
            return "";
          case ReadFailed =>
            return "";
          case ReadOk(bytes) =>
            var s := CString(bytes);
            var ok := IsValidSerial(Some(s));
            if !ok {
              s := "";
            }
            serialBuf := s;
            isInitialized := true;
        }
      }
      serial := serialBuf;
    }
  }

  /** A NUL inside the eight bytes ends the string early, so the stored serial is invalid. */
  lemma NulShortensSerial()
    ensures CString("1234567\0") == "1234567" && !ValidSerial("1234567")
  {
    CStringStopsAtNul("1234567", "");
    assert "1234567" + ['\0'] + "" == "1234567\0";
  }

  /** The string ends at the first NUL, whatever follows it. */
  lemma {:induction false} CStringStopsAtNul(d: seq<char>, rest: seq<char>)
    requires '\0' !in d
    ensures CString(d + ['\0'] + rest) == d
  {
    if |d| > 0 {
      assert d[0] in d;
      assert forall c :: c in d[1..] ==> c in d;
      assert (d + ['\0'] + rest)[1..] == d[1..] + ['\0'] + rest;
      CStringStopsAtNul(d[1..], rest);
    } else {
      assert (d + ['\0'] + rest)[0] == '\0';
    }
  }

  /** A non-digit among the eight bytes makes the stored serial invalid. */
  lemma NonDigitInvalidatesSerial()
    ensures CString("1234567x") == "1234567x" && !ValidSerial("1234567x")
  {
    CStringWithoutNul("1234567x");
    assert !IsDigit("1234567x"[7]);
  }

  /** Eight digits are read whole and pass. */
  lemma EightDigitsPass()
    ensures ValidSerial(CString("12345678"))
  {
    var d := "12345678";
    assert forall i :: 0 <= i < |d| ==> '0' <= d[i] <= '9';
    ValidSerialIsWhole(d);
  }

  /** A valid serial holds no NUL, so it is read whole. */
  lemma ValidSerialIsWhole(d: string)
    requires ValidSerial(d)
    ensures CString(d) == d
  {
    forall c | c in d
      ensures c != '\0'
    {
      var i :| 0 <= i < |d| && d[i] == c;
    }
    CStringWithoutNul(d);
  }

  /** A buffer without NUL is read whole. */
  lemma {:induction false} CStringWithoutNul(buf: seq<char>)
    requires '\0' !in buf
    ensures CString(buf) == buf
  {
    if |buf| > 0 {
      assert buf[0] in buf;
      assert forall c :: c in buf[1..] ==> c in buf;
      CStringWithoutNul(buf[1..]);
    }
  }
}
