/**
 * What every input shares (iinput.h, enums.h): its kind and tags, the
 * scenes it cycles through, and the `uint8_t` cursor that selects the
 * scene a trigger runs.
 */
module Inputs {
  import opened Bytes

  /** `InputType`; `VoiceCmd` is used by voice_command.h but missing from the enumeration in enums.h. */
  datatype InputType = PanelButton | DryContact | VoiceCmd

  /**
   * `InputTag`. `IgnoreAnyKeyExecute` is tested by channel_input.cpp but
   * missing from the enumeration in enums.h; it is included so that the
   * channel input's check can be modelled.
   */
  datatype InputTag = RemoveCardUsable | IsAliveChannel | IsDoorChannel | IsDoorbellChannel | NoTag | IgnoreAnyKeyExecute

  datatype TriggerType = LowLevel | HighLevel | Infrared | InfraredTimeout

  /**
   * The cursor after a trigger: `(current_index + 1) % action_groups.size()`
   * stored back into a `uint8_t`, so a result of 256 or more wraps.
   */
  function NextCursor(i: byte, n: nat): (r: byte)
    requires n > 0
    ensures n <= 256 ==> r < n
    ensures n <= 256 && i < n ==> r == (i + 1) % n
  {
    ((i + 1) % n) % 256
  }

  /** The cursor step of one trigger: an input without scenes keeps its cursor. */
  function Stepped(i: byte, n: nat): byte
  {
    if i < n then NextCursor(i, n) else i
  }

  /** The cursor after `k` triggers, starting from `i`. */
  function Advance(i: byte, k: nat, n: nat): byte
    requires n > 0
  {
    if k == 0 then i else NextCursor(Advance(i, k - 1, n), n)
  }

  /**
   * Round robin: with at most 256 scenes and a cursor that starts inside
   * the list, the `k`-th trigger after position `i` runs scene `(i + k) % n`.
   */
  lemma {:induction false} AdvanceIsRoundRobin(i: byte, k: nat, n: nat)
    requires 0 < n <= 256 && i < n
    ensures Advance(i, k, n) == (i + k) % n
  {
    if k > 0 {
      var a: nat := i as nat + k - 1;
      AdvanceIsRoundRobin(i, k - 1, n);
      assert Advance(i, k - 1, n) as int == a % n;
      NextCursorOfRemainder(a, n);
      assert Advance(i, k, n) == NextCursor((a % n) as byte, n);
      assert a + 1 == i as nat + k;
    } else {
      ModUnique(i as nat, 0, i as nat, n);
    }
  }

  /** One trigger from position `a % n` lands on `(a + 1) % n`. */
  lemma NextCursorOfRemainder(a: nat, n: nat)
    requires 0 < n <= 256
    ensures NextCursor(a % n, n) == (a + 1) % n
  {
    ModStep(a, n);
  }

  lemma ModStep(a: nat, n: nat)
    requires n > 0
    ensures (a % n + 1) % n == (a + 1) % n
  {
    var q, r := a / n, a % n;
    if r + 1 < n {
      ModUnique(a + 1, q, r + 1, n);
      ModUnique(r + 1, 0, r + 1, n);
    } else {
      ModUnique(a + 1, q + 1, 0, n);
      ModUnique(r + 1, 1, 0, n);
    }
  }

  /** Euclidean division has one quotient and one remainder. */
  lemma ModUnique(x: int, q: int, r: int, n: int)
    requires n > 0 && x == q * n + r && 0 <= r < n
    ensures x % n == r
  {
    var q', r' := x / n, x % n;
    assert (q - q') * n == r' - r;
    if q > q' {
      MulAtLeast(q - q', n);
    } else if q < q' {
      MulAtLeast(q' - q, n);
    }
  }

  lemma MulAtLeast(d: int, n: int)
    requires d >= 1 && n > 0
    ensures d * n >= n
  {
  }

  /** With more than 256 scenes the wrap of the `uint8_t` cursor sends the 257th trigger back to scene 0, skipping scene 256. */
  lemma CursorWrapsPast255()
    ensures NextCursor(255, 300) == 0
  {
  }
}
