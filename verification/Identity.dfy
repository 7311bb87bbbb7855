/**
 * Message ids and Redis key names: the rolling sequence of nextSeqScript, the
 * text that GenerateID digests, and the keys of pkg/queue/keys.go.
 */
module Identity {
  import opened Messages

  const MAX_SEQUENCE: nat := 999999999999

  // ----- decimal text -----

  function Digit(d: nat): char
    requires d < 10
  {
    ('0' as int + d) as char
  }

  function Decimal(n: nat): string {
    if n < 10 then [Digit(n)] else Decimal(n / 10) + [Digit(n % 10)]
  }

  function Value(s: string): int {
    if s == [] then 0 else 10 * Value(s[..|s| - 1]) + (s[|s| - 1] as int - '0' as int)
  }

  predicate ColonFree(s: string) {
    ':' !in s
  }

  lemma {:induction false} DecimalReadsBack(n: nat)
    ensures Value(Decimal(n)) == n
    ensures ColonFree(Decimal(n))
    ensures Decimal(n) != "" && (n > 0 ==> Decimal(n)[0] != '0')
    ensures forall i :: 0 <= i < |Decimal(n)| ==> '0' <= Decimal(n)[i] <= '9'
  {
    if n >= 10 {
      DecimalReadsBack(n / 10);
      assert Decimal(n)[..|Decimal(n)| - 1] == Decimal(n / 10);
    } else {
      assert Decimal(n)[..0] == [];
    }
  }

  /** Text splits at its last colon in only one way. */
  lemma {:induction false} LastColon(a: string, b: string, c: string, d: string)
    requires a + ":" + b == c + ":" + d
    requires ColonFree(b) && ColonFree(d)
    ensures a == c && b == d
  {
    var s, t := a + ":" + b, c + ":" + d;
    assert s[|a|] == ':' && t[|c|] == ':';
    assert a == s[..|a|] && c == t[..|a|];
    assert b == s[|a| + 1..] && d == t[|a| + 1..];
  }

  // ----- the sequence -----

  /** The stored sequence and epoch; a missing key counts as 0. */
  datatype Counter = Counter(epoch: nat, number: nat)

  function Advance(c: Counter, max: nat): Counter {
    if c.number + 1 > max then Counter(c.epoch + 1, 0) else Counter(c.epoch, c.number + 1)
  }

  predicate Before(a: Counter, b: Counter) {
    a.epoch < b.epoch || (a.epoch == b.epoch && a.number < b.number)
  }

  /** The counter after n calls. */
  function After(c: Counter, max: nat, n: nat): Counter {
    if n == 0 then c else Advance(After(c, max, n - 1), max)
  }

  function Payload(channel: string, c: Counter): string {
    channel + ":" + Decimal(c.epoch) + ":" + Decimal(c.number)
  }

  /** Pairs strictly increase, across any number of rollovers, and the sequence stays within range. */
  lemma {:induction false} SequenceIncreases(c: Counter, max: nat, i: nat, j: nat)
    requires i < j
    ensures Before(After(c, max, i), After(c, max, j))
    ensures After(c, max, j).number <= max
    decreases j
  {
    if i < j - 1 {
      SequenceIncreases(c, max, i, j - 1);
    }
  }

  /** The pair after n calls on a fresh channel: the calls counted in base max + 1. */
  lemma {:induction false} SequenceExactly(max: nat, n: nat)
    ensures After(Counter(0, 0), max, n) == Counter(n / (max + 1), n % (max + 1))
  {
    if n > 0 {
      SequenceExactly(max, n - 1);
      NextQuotient(n - 1, max + 1);
    }
  }

  lemma NextQuotient(n: nat, base: nat)
    requires base > 0
    ensures (n + 1) / base == n / base + if n % base + 1 == base then 1 else 0
    ensures (n + 1) % base == if n % base + 1 == base then 0 else n % base + 1
  {
    var q, m := n / base, n % base;
    assert n + 1 == base * q + (m + 1);
    if m + 1 == base {
      assert n + 1 == base * (q + 1);
      Quotient(n + 1, base, q + 1, 0);
    } else {
      Quotient(n + 1, base, q, m + 1);
    }
  }

  /** A multiple of the base that is smaller than the base is zero. */
  lemma Multiple(base: int, d: int, rest: int)
    requires base > 0 && -base < rest < base && base * d == rest
    ensures d == 0
  {
  }

  lemma Quotient(n: nat, base: nat, q: nat, m: nat)
    requires n == base * q + m && m < base
    ensures n / base == q && n % base == m
  {
    Multiple(base, n / base - q, m - n % base);
  }

  /** Channel, epoch and sequence can be read back from the digested text, colons in channels or not. */
  lemma PayloadInjective(ch1: string, c1: Counter, ch2: string, c2: Counter)
    requires Payload(ch1, c1) == Payload(ch2, c2)
    ensures ch1 == ch2 && c1 == c2
  {
    DecimalReadsBack(c1.epoch);
    DecimalReadsBack(c1.number);
    DecimalReadsBack(c2.epoch);
    DecimalReadsBack(c2.number);
    LastColon(ch1 + ":" + Decimal(c1.epoch), Decimal(c1.number), ch2 + ":" + Decimal(c2.epoch), Decimal(c2.number));
    LastColon(ch1, Decimal(c1.epoch), ch2, Decimal(c2.epoch));
  }

  /** The digest does not collide on these texts. */
  ghost predicate InjectiveOn(digest: string -> Id, texts: set<string>) {
    forall a, b :: a in texts && b in texts && digest(a) == digest(b) ==> a == b
  }

  /** No two calls return the same id, within a channel or across channels, unless their two texts collide. */
  lemma IdsNeverRepeat(digest: string -> Id, max: nat,
                       ch1: string, c1: Counter, i: nat, ch2: string, c2: Counter, j: nat)
    requires InjectiveOn(digest, {Payload(ch1, After(c1, max, i)), Payload(ch2, After(c2, max, j))})
    requires ch1 == ch2 ==> c1 == c2 && i != j
    ensures digest(Payload(ch1, After(c1, max, i))) != digest(Payload(ch2, After(c2, max, j)))
  {
    var a, b := After(c1, max, i), After(c2, max, j);
    if digest(Payload(ch1, a)) == digest(Payload(ch2, b)) {
      PayloadInjective(ch1, a, ch2, b);
      SequenceIncreases(c1, max, if i < j then i else j, if i < j then j else i);
      assert false;
    }
  }

  /** The sequence keys of one channel. */
  class Sequence {
    var number: nat
    var epoch: Option<nat>

    function Stored(): Counter
      reads this
    {
      Counter(if epoch.Some? then epoch.value else 0, number)
    }

    constructor ()
      ensures Stored() == Counter(0, 0)
    {
      number, epoch := 0, None;
    }

    /** nextSeqScript: both numbers as text. */
    method Next(max: nat) returns (seqText: string, epochText: string)
      modifies this
      ensures Stored() == Advance(old(Stored()), max)
      ensures var was := old(Stored());
              Stored() == if was.number + 1 > max then Counter(was.epoch + 1, 0) else Counter(was.epoch, was.number + 1)
      ensures seqText == Decimal(Stored().number) && epochText == Decimal(Stored().epoch)
    {
      number := number + 1;
      if epoch.None? {
        epoch := Some(0);
      }
      if number > max {
        number := 0;
        epoch := Some(epoch.value + 1);
      }
      return Decimal(number), Decimal(epoch.value);
    }

    method GenerateId(channel: string, digest: string -> Id) returns (id: Id)
      modifies this
      ensures Stored() == Advance(old(Stored()), MAX_SEQUENCE)
      ensures id == digest(Payload(channel, Stored()))
      ensures var was := old(Stored());
              Stored() == if was.number >= 999999999999 then Counter(was.epoch + 1, 0)
                          else Counter(was.epoch, was.number + 1)
      ensures id == digest(channel + ":" + Decimal(Stored().epoch) + ":" + Decimal(Stored().number))
    {
      var seqText, epochText := Next(MAX_SEQUENCE);
      id := digest(channel + ":" + epochText + ":" + seqText);
    }
  }

  // ----- keys -----

  datatype Slot =
    | WaitingKey | ReservedKey | TimeoutKey | DelayedKey | FailedKey
    | SequenceKey | EpochKey
    | MessageKey(id: Id)

  function SlotName(s: Slot): string {
    match s
    case WaitingKey => "waiting"
    case ReservedKey => "reserved"
    case TimeoutKey => "timeout"
    case DelayedKey => "delayed"
    case FailedKey => "failed"
    case SequenceKey => "msg_seq"
    case EpochKey => "msg_seq_epoch"
    case MessageKey(id) => id
  }

  function KeyPrefix(channel: string, s: Slot): string {
    "{" + channel + (if s.MessageKey? then "}:message" else "}")
  }

  function Key(channel: string, s: Slot): string {
    KeyPrefix(channel, s) + ":" + SlotName(s)
  }

  /** A hexadecimal MD5 digest. */
  predicate IsDigest(id: Id) {
    |id| == 32 && forall i :: 0 <= i < |id| ==> '0' <= id[i] <= '9' || 'a' <= id[i] <= 'f'
  }

  /** The keys of a channel, as they are written. */
  lemma KeyNames(channel: string, s: Slot)
    ensures Key(channel, s)
         == "{" + channel + match s
                            case WaitingKey => "}:waiting"
                            case ReservedKey => "}:reserved"
                            case TimeoutKey => "}:timeout"
                            case DelayedKey => "}:delayed"
                            case FailedKey => "}:failed"
                            case SequenceKey => "}:msg_seq"
                            case EpochKey => "}:msg_seq_epoch"
                            case MessageKey(id) => "}:message:" + id
  {
    match s
    case WaitingKey => Written(channel, s, "}", "waiting", "}:waiting");
    case ReservedKey => Written(channel, s, "}", "reserved", "}:reserved");
    case TimeoutKey => Written(channel, s, "}", "timeout", "}:timeout");
    case DelayedKey => Written(channel, s, "}", "delayed", "}:delayed");
    case FailedKey => Written(channel, s, "}", "failed", "}:failed");
    case SequenceKey => Written(channel, s, "}", "msg_seq", "}:msg_seq");
    case EpochKey => Written(channel, s, "}", "msg_seq_epoch", "}:msg_seq_epoch");
    case MessageKey(id) => Written(channel, s, "}:message", id, "}:message:" + id);
  }

  lemma Written(channel: string, s: Slot, closing: string, name: string, rest: string)
    requires KeyPrefix(channel, s) == "{" + channel + closing && SlotName(s) == name && rest == closing + ":" + name
    ensures Key(channel, s) == "{" + channel + rest
  {
  }

  lemma SlotNameFacts(s: Slot)
    requires s.MessageKey? ==> IsDigest(s.id)
    ensures ColonFree(SlotName(s))
    ensures IsDigest(SlotName(s)) <==> s.MessageKey?
  {
  }

  /** No key of any channel is shared: not between buckets, not between messages, not between channels. */
  lemma KeysSeparate(ch1: string, s1: Slot, ch2: string, s2: Slot)
    requires s1.MessageKey? ==> IsDigest(s1.id)
    requires s2.MessageKey? ==> IsDigest(s2.id)
    requires Key(ch1, s1) == Key(ch2, s2)
    ensures ch1 == ch2 && s1 == s2
  {
    SlotNameFacts(s1);
    SlotNameFacts(s2);
    LastColon(KeyPrefix(ch1, s1), SlotName(s1), KeyPrefix(ch2, s2), SlotName(s2));
    var tail := if s1.MessageKey? then "}:message" else "}";
    var p := KeyPrefix(ch1, s1);
    assert ch1 == p[1..|p| - |tail|];
    assert ch2 == p[1..|p| - |tail|];
    assert s1 == s2;
  }
}
