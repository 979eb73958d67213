/** Queue attributes are entries of a table; an attribute is its index, a mixed-radix number whose digits
    are the attribute's fields. */
module AttrCodec {
  import opened Digits
  import opened Options

  /** The DISPATCH_QUEUE_ATTR_*_COUNTs; the concurrency digit always has radix 2. */
  datatype Radices = Radices(overcommit: nat, autorelease: nat, qos: nat, prio: nat, inactive: nat)

  predicate Positive(r: Radices) {
    r.overcommit > 0 && r.autorelease > 0 && r.qos > 0 && r.prio > 0 && r.inactive > 0
  }

  /** dispatch_queue_attr_info_t.  Relative priorities are never positive. */
  datatype Info = Info(overcommit: nat, autorelease: nat, qos: nat, relpri: int, concurrent: bool, inactive: nat)

  predicate InRange(r: Radices, i: Info) {
    i.overcommit < r.overcommit && i.autorelease < r.autorelease && i.qos < r.qos
    && 0 <= -i.relpri < r.prio && i.inactive < r.inactive
  }

  /** DISPATCH_QUEUE_ATTR_COUNT */
  function Count(r: Radices): nat {
    Times(Times(Times(Times(Times(r.overcommit, r.autorelease), r.qos), r.prio), 2), r.inactive)
  }

  /** _dispatch_queue_attr_from_info */
  function FromInfo(r: Radices, i: Info): nat
    requires i.relpri <= 0
  {
    var idx := i.overcommit;
    var idx := Push(idx, r.autorelease, i.autorelease);
    var idx := Push(idx, r.qos, i.qos);
    var idx := Push(idx, r.prio, -i.relpri);
    var idx := Push(idx, 2, if i.concurrent then 0 else 1);
    Push(idx, r.inactive, i.inactive)
  }

  /** _dispatch_queue_attr_to_info, of an entry of the table. */
  function ToInfo(r: Radices, idx: nat): (i: Info)
    requires Positive(r)
    ensures InRange(r, i)
  {
    var inactive, idx := Low(idx, r.inactive), High(idx, r.inactive);
    var concurrent, idx := Low(idx, 2) == 0, High(idx, 2);
    var relpri: int, idx := 0 - Low(idx, r.prio), High(idx, r.prio);
    var qos, idx := Low(idx, r.qos), High(idx, r.qos);
    var autorelease, idx := Low(idx, r.autorelease), High(idx, r.autorelease);
    Info(Low(idx, r.overcommit), autorelease, qos, relpri, concurrent, inactive)
  }

  /** The codec loses nothing: records in range have an index of their own in the table. */
  lemma ToInfoOfFromInfo(r: Radices, i: Info)
    requires Positive(r) && InRange(r, i)
    ensures FromInfo(r, i) < Count(r) && ToInfo(r, FromInfo(r, i)) == i
  {
    hide Push, Low, High, Times;
    var a := i.overcommit;
    var b := Push(a, r.autorelease, i.autorelease);
    var c := Push(b, r.qos, i.qos);
    var d := Push(c, r.prio, -i.relpri);
    var e := Push(d, 2, if i.concurrent then 0 else 1);
    var n1 := Times(r.overcommit, r.autorelease);
    var n2 := Times(n1, r.qos);
    var n3 := Times(n2, r.prio);
    PushBelow(a, r.overcommit, r.autorelease, i.autorelease);
    PushBelow(b, n1, r.qos, i.qos);
    PushBelow(c, n2, r.prio, -i.relpri);
    PushBelow(d, n3, 2, if i.concurrent then 0 else 1);
    PushBelow(e, Times(n3, 2), r.inactive, i.inactive);
    PopPush(e, r.inactive, i.inactive);
    PopPush(d, 2, if i.concurrent then 0 else 1);
    PopPush(c, r.prio, -i.relpri);
    PopPush(b, r.qos, i.qos);
    PopPush(a, r.autorelease, i.autorelease);
    TopDigit(a, r.overcommit);
  }

  lemma TopDigit(a: nat, r: nat)
    requires a < r
    ensures Low(a, r) == a
  {
    PopPush(0, r, a);
  }

  /** Every entry of the table is the one its own record asks for. */
  lemma FromInfoOfToInfo(r: Radices, idx: nat)
    requires Positive(r) && idx < Count(r)
    ensures FromInfo(r, ToInfo(r, idx)) == idx
  {
    hide Push, Low, High, Times;
    var n1 := Times(r.overcommit, r.autorelease);
    var n2 := Times(n1, r.qos);
    var n3 := Times(n2, r.prio);
    HighBelow(idx, Times(n3, 2), r.inactive);
    var e := High(idx, r.inactive);
    HighBelow(e, n3, 2);
    var d := High(e, 2);
    HighBelow(d, n2, r.prio);
    var c := High(d, r.prio);
    HighBelow(c, n1, r.qos);
    var b := High(c, r.qos);
    HighBelow(b, r.overcommit, r.autorelease);
    var a := High(b, r.autorelease);
    TopDigit(a, r.overcommit);
    PushPop(b, r.autorelease);
    PushPop(c, r.qos);
    PushPop(d, r.prio);
    PushPop(e, 2);
    PushPop(idx, r.inactive);
  }

  /** The first entry of the table, which is also DISPATCH_QUEUE_CONCURRENT, is concurrent and otherwise plain. */
  lemma ConcurrentIsFirst(r: Radices, i: Info)
    requires Positive(r) && InRange(r, i)
    ensures FromInfo(r, i) == 0 <==>
            i.concurrent && i.overcommit == 0 && i.autorelease == 0 && i.qos == 0 && i.relpri == 0 && i.inactive == 0
  {
    hide Low, High, Times, Push;
    var b := Push(i.overcommit, r.autorelease, i.autorelease);
    var c := Push(b, r.qos, i.qos);
    var d := Push(c, r.prio, -i.relpri);
    var e := Push(d, 2, if i.concurrent then 0 else 1);
    PushZero(e, r.inactive, i.inactive);
    PushZero(d, 2, if i.concurrent then 0 else 1);
    PushZero(c, r.prio, -i.relpri);
    PushZero(b, r.qos, i.qos);
    PushZero(i.overcommit, r.autorelease, i.autorelease);
  }

  lemma PushZero(x: nat, r: nat, d: nat)
    requires r > 0
    ensures Push(x, r, d) == 0 <==> x == 0 && d == 0
  {
    if x > 0 { TimesMonotone(1, x, r); }
  }

  // ---- the setters --------------------------------------------------------------------------

  /** The record of an attribute; NULL stands for the all-zero one. */
  function InfoOf(r: Radices, attr: Option<nat>): Info
    requires Positive(r)
  {
    if attr.None? then Info(0, 0, 0, 0, false, 0) else ToInfo(r, attr.value)
  }

  const QOS_MIN_RELATIVE_PRIORITY: int := -15

  /** _dispatch_qos_from_qos_class, for the classes that are valid. */
  function QosOf(cls: nat): Option<nat> {
    if cls == 0x21 then Some(6) else if cls == 0x19 then Some(5) else if cls == 0x15 then Some(4)
    else if cls == 0x11 then Some(3) else if cls == 0x09 then Some(2) else if cls == 0x05 then Some(1)
    else if cls == 0 then Some(0) else None
  }

  function MakeInactive(r: Radices, attr: Option<nat>): Option<nat>
    requires Positive(r)
  {
    Some(FromInfo(r, InfoOf(r, attr).(inactive := 1)))
  }

  function MakeOvercommit(r: Radices, attr: Option<nat>, overcommit: bool): Option<nat>
    requires Positive(r)
  {
    Some(FromInfo(r, InfoOf(r, attr).(overcommit := if overcommit then 1 else 2)))
  }

  /** The field dqai_autorelease_frequency has two bits. */
  function TwoBits(frequency: nat): nat { frequency % 4 }

  /** The switch over the frequencies lets every value through. */
  function MakeAutorelease(r: Radices, attr: Option<nat>, frequency: nat): Option<nat>
    requires Positive(r)
  {
    Some(FromInfo(r, InfoOf(r, attr).(autorelease := TwoBits(frequency))))
  }

  function MakeQos(r: Radices, attr: Option<nat>, cls: nat, relpri: int): Option<nat>
    requires Positive(r)
  {
    if QosOf(cls).None? || !(QOS_MIN_RELATIVE_PRIORITY <= relpri <= 0) then attr
    else Some(FromInfo(r, InfoOf(r, attr).(qos := QosOf(cls).value, relpri := relpri)))
  }

  /** The table is large enough for every value a setter stores. */
  predicate Roomy(r: Radices) {
    r.overcommit >= 3 && r.autorelease > 0 && r.qos >= 7 && r.prio >= 16 && r.inactive >= 2
  }

  const TABLE := Radices(3, 3, 7, 16, 2)

  lemma TableIsRoomy()
    ensures Roomy(TABLE) && Positive(TABLE) && Count(TABLE) == 4032
  {}

  /** Each setter changes its own field and no other. */
  lemma SettersChangeOneField(r: Radices, attr: Option<nat>, oc: bool, frequency: nat, cls: nat, relpri: int)
    requires Roomy(r)
    ensures InfoOf(r, MakeInactive(r, attr)) == InfoOf(r, attr).(inactive := 1)
    ensures InfoOf(r, MakeOvercommit(r, attr, oc)) == InfoOf(r, attr).(overcommit := if oc then 1 else 2)
    ensures TwoBits(frequency) < r.autorelease ==>
              InfoOf(r, MakeAutorelease(r, attr, frequency)) == InfoOf(r, attr).(autorelease := TwoBits(frequency))
    ensures InfoOf(r, MakeQos(r, attr, cls, relpri)) ==
            if QosOf(cls).Some? && -15 <= relpri <= 0 then InfoOf(r, attr).(qos := QosOf(cls).value, relpri := relpri)
            else InfoOf(r, attr)
  {
    hide ToInfo, FromInfo, TwoBits;
    var i := InfoOf(r, attr);
    ToInfoOfFromInfo(r, i.(inactive := 1));
    ToInfoOfFromInfo(r, i.(overcommit := if oc then 1 else 2));
    if TwoBits(frequency) < r.autorelease { ToInfoOfFromInfo(r, i.(autorelease := TwoBits(frequency))); }
    if QosOf(cls).Some? && -15 <= relpri <= 0 {
      ToInfoOfFromInfo(r, i.(qos := QosOf(cls).value, relpri := relpri));
    }
  }

  /** Setters of different fields commute. */
  lemma SettersCommute(r: Radices, attr: Option<nat>, oc: bool, frequency: nat, cls: nat, relpri: int)
    requires Roomy(r) && TwoBits(frequency) < r.autorelease && QosOf(cls).Some? && -15 <= relpri <= 0
    ensures MakeQos(r, MakeInactive(r, attr), cls, relpri) == MakeInactive(r, MakeQos(r, attr, cls, relpri))
    ensures MakeQos(r, MakeOvercommit(r, attr, oc), cls, relpri) == MakeOvercommit(r, MakeQos(r, attr, cls, relpri), oc)
    ensures MakeQos(r, MakeAutorelease(r, attr, frequency), cls, relpri)
         == MakeAutorelease(r, MakeQos(r, attr, cls, relpri), frequency)
    ensures MakeInactive(r, MakeOvercommit(r, attr, oc)) == MakeOvercommit(r, MakeInactive(r, attr), oc)
    ensures MakeInactive(r, MakeAutorelease(r, attr, frequency)) == MakeAutorelease(r, MakeInactive(r, attr), frequency)
    ensures MakeOvercommit(r, MakeAutorelease(r, attr, frequency), oc)
         == MakeAutorelease(r, MakeOvercommit(r, attr, oc), frequency)
  {
    hide ToInfo, FromInfo, QosOf, TwoBits;
    SettersChangeOneField(r, attr, oc, frequency, cls, relpri);
  }

  /** A frequency the switch should have refused is not kept: the setter works exactly for those that have
      an entry and fit the field. */
  lemma AutoreleaseIsKeptIffInRange(r: Radices, attr: Option<nat>, frequency: nat)
    requires Roomy(r)
    ensures InfoOf(r, MakeAutorelease(r, attr, frequency)) == InfoOf(r, attr).(autorelease := frequency)
       <==> frequency < r.autorelease && frequency < 4
  {
    hide ToInfo, FromInfo;
    if TwoBits(frequency) < r.autorelease {
      ToInfoOfFromInfo(r, InfoOf(r, attr).(autorelease := TwoBits(frequency)));
    }
  }

  /** The field's first value out of range reads back as frequency 0 with the next overcommit setting. */
  lemma FrequencyCarriesIntoOvercommit(r: Radices, attr: Option<nat>, frequency: nat)
    requires Roomy(r) && TwoBits(frequency) == r.autorelease
    ensures MakeAutorelease(r, attr, frequency)
         == Some(FromInfo(r, InfoOf(r, attr).(overcommit := InfoOf(r, attr).overcommit + 1, autorelease := 0)))
    ensures MakeAutorelease(r, attr, frequency).value < Count(r) <==> InfoOf(r, attr).overcommit + 1 < r.overcommit
  {
    hide ToInfo, FromInfo, TwoBits, Push, Count;
    var i := InfoOf(r, attr);
    CarriesIntoOvercommit(r, i);
    var j := i.(overcommit := i.overcommit + 1, autorelease := 0);
    if j.overcommit < r.overcommit { ToInfoOfFromInfo(r, j); } else { OvercommitOutOfRange(r, j); }
  }

  lemma CarriesIntoOvercommit(r: Radices, i: Info)
    requires i.relpri <= 0
    ensures FromInfo(r, i.(autorelease := r.autorelease))
         == FromInfo(r, i.(overcommit := i.overcommit + 1, autorelease := 0))
  {
    hide Push;
    PushCarries(i.overcommit, r.autorelease);
  }

  /** The overcommit field is the top digit: out of range, it takes the index out of the table. */
  lemma OvercommitOutOfRange(r: Radices, i: Info)
    requires i.relpri <= 0 && i.overcommit >= r.overcommit
    ensures FromInfo(r, i) >= Count(r)
  {
    hide Push, Times;
    var b := Push(i.overcommit, r.autorelease, i.autorelease);
    var c := Push(b, r.qos, i.qos);
    var d := Push(c, r.prio, -i.relpri);
    var e := Push(d, 2, if i.concurrent then 0 else 1);
    var n1 := Times(r.overcommit, r.autorelease);
    var n2 := Times(n1, r.qos);
    var n3 := Times(n2, r.prio);
    PushAtLeast(i.overcommit, r.overcommit, r.autorelease, i.autorelease);
    PushAtLeast(b, n1, r.qos, i.qos);
    PushAtLeast(c, n2, r.prio, -i.relpri);
    PushAtLeast(d, n3, 2, if i.concurrent then 0 else 1);
    PushAtLeast(e, Times(n3, 2), r.inactive, i.inactive);
  }

  lemma PushAtLeast(x: nat, n: nat, r: nat, d: nat)
    requires x >= n
    ensures Push(x, r, d) >= Times(n, r)
  {
    TimesMonotone(n, x, r);
  }

  lemma PushCarries(x: nat, r: nat)
    ensures Push(x, r, r) == Push(x + 1, r, 0)
  {}

  /** NULL, which is DISPATCH_QUEUE_SERIAL, reads like the entry that is not concurrent and otherwise plain, and
      DISPATCH_QUEUE_CONCURRENT like the first entry. */
  lemma NullIsSerial(r: Radices)
    requires Roomy(r)
    ensures FromInfo(r, InfoOf(r, None)) == r.inactive < Count(r)
    ensures InfoOf(r, Some(r.inactive)) == InfoOf(r, None)
    ensures InfoOf(r, Some(0)) == InfoOf(r, None).(concurrent := true)
  {
    hide ToInfo, FromInfo, Count;
    var i := InfoOf(r, None);
    ConcurrentIsFirst(r, i.(concurrent := true));
    DigitWeights(r, i);
    ToInfoOfFromInfo(r, i);
    ToInfoOfFromInfo(r, i.(concurrent := true));
  }

  // ---- what the values mean -----------------------------------------------------------------

  /** The QoS classes that are valid, lowest first, are the digits in order, and no other class has one. */
  lemma QosClassesAreInOrder(a: nat, b: nat, q: nat)
    ensures QosOf(a).Some? && QosOf(b).Some? ==> (a < b <==> QosOf(a).value < QosOf(b).value)
    ensures q < 7 <==> exists c :: QosOf(c) == Some(q)
    ensures QosOf(a).Some? <==> a in {0, 0x05, 0x09, 0x11, 0x15, 0x19, 0x21}
    ensures QosOf(a).Some? ==> QosOf(a).value < 7
  {
    if q < 7 { assert QosOf([0, 0x05, 0x09, 0x11, 0x15, 0x19, 0x21][q]) == Some(q); }
  }

  /** What is added above a digit of radix `r` counts `r` times. */
  lemma PushAdd(x: nat, up: nat, r: nat, d: nat)
    ensures Push(x + up, r, d) == Push(x, r, d) + Times(up, r) && Times(1, r) == r
    ensures Push(x, r, d + 1) == Push(x, r, d) + 1
  {}

  /** Where the digits stand: the last one is whether the queue starts inactive, before it whether it is
      concurrent, then the relative priority, the QoS, the autorelease frequency and overcommit. */
  lemma DigitWeights(r: Radices, i: Info)
    requires i.relpri <= 0
    ensures FromInfo(r, i.(inactive := i.inactive + 1)) == FromInfo(r, i) + 1
    ensures FromInfo(r, i.(concurrent := false)) == FromInfo(r, i.(concurrent := true)) + r.inactive
    ensures FromInfo(r, i.(relpri := i.relpri - 1)) == FromInfo(r, i) + Times(2, r.inactive)
    ensures FromInfo(r, i.(qos := i.qos + 1)) == FromInfo(r, i) + Times(Times(r.prio, 2), r.inactive)
    ensures FromInfo(r, i.(autorelease := i.autorelease + 1))
         == FromInfo(r, i) + Times(Times(Times(r.qos, r.prio), 2), r.inactive)
    ensures FromInfo(r, i.(overcommit := i.overcommit + 1))
         == FromInfo(r, i) + Times(Times(Times(Times(r.autorelease, r.qos), r.prio), 2), r.inactive)
  {
    hide Times, Push;
    var x := if i.concurrent then 0 else 1;
    var a := i.overcommit;
    var b := Push(a, r.autorelease, i.autorelease);
    var c := Push(b, r.qos, i.qos);
    var d := Push(c, r.prio, -i.relpri);
    var e := Push(d, 2, x);
    PushAdd(a, 1, r.autorelease, i.autorelease);
    PushAdd(b, 1, r.qos, i.qos);
    PushAdd(c, 1, r.prio, -i.relpri);
    PushAdd(d, 1, 2, x);
    PushAdd(e, 1, r.inactive, i.inactive);
    PushAdd(d, 1, 2, 0);
    PushAdd(Push(d, 2, 0), 1, r.inactive, i.inactive);
    AddAtPriority(r, i, c, 1);
    AddAtPriority(r, i, c, r.qos);
    AddAtPriority(r, i, c, Times(r.autorelease, r.qos));
    PushAdd(b, r.autorelease, r.qos, i.qos);
    PushAdd(e, 2, r.inactive, i.inactive);
  }

  /** The same from the priority on down. */
  lemma AddAtPriority(r: Radices, i: Info, c: nat, up: nat)
    requires i.relpri <= 0
    ensures var x := if i.concurrent then 0 else 1;
            Push(Push(Push(c + up, r.prio, -i.relpri), 2, x), r.inactive, i.inactive)
            == Push(Push(Push(c, r.prio, -i.relpri), 2, x), r.inactive, i.inactive)
               + Times(Times(Times(up, r.prio), 2), r.inactive)
    ensures Times(Times(Times(1, r.prio), 2), r.inactive) == Times(Times(r.prio, 2), r.inactive)
  {
    hide Times, Push;
    var x := if i.concurrent then 0 else 1;
    var d := Push(c, r.prio, -i.relpri);
    PushAdd(c, up, r.prio, -i.relpri);
    PushAdd(c, 1, r.prio, -i.relpri);
    PushAdd(d, Times(up, r.prio), 2, x);
    PushAdd(Push(d, 2, x), Times(Times(up, r.prio), 2), r.inactive, i.inactive);
  }
}
