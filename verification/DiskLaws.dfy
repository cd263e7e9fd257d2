/** What a disk entry of any number of options is read as: laws stated on the text of the entry. */
module DiskLaws {
  import opened Wrappers
  import opened Text
  import opened DiskStatus

  // ----- Which entries are read at all

  /** Entries of CD-ROM and ISO media, empty ones and "none" are passed over, and only these. */
  lemma OnlyMediaIsSkipped(name: string, config: string)
    ensures ReadDisk(name, config) == None <==>
      config == "" || config == "none" || Contains(config, "media=cdrom") || Contains(config, ",iso")
    ensures ReadUnusedDisk(name, config) == None <==> config == "" || config == "none"
  {
    hide Contains, DiskSize, Device, Split, Cut;
  }

  // ----- Sizes

  /** The unit letters are the powers of 1024, and no other character is one. */
  lemma UnitsArePowers(c: char)
    ensures UnitOf(c) ==
      if c == 'K' then Some(1024)
      else if c == 'M' then Some(1024 * 1024)
      else if c == 'G' then Some(1024 * 1024 * 1024)
      else if c == 'T' then Some(1024 * 1024 * 1024 * 1024)
      else None
  {
  }

  /** The digits before and after the point count together, and each one after it for a tenth of the last. */
  lemma FractionIsScaled(whole: nat, fraction: string, letter: char)
    requires AllDigits(fraction) && UnitOf(letter).Some?
    ensures DiskSize(NatText(whole) + "." + fraction + [letter]) ==
      NatValue(NatText(whole) + fraction) * UnitOf(letter).value / Power10(|fraction|)
    ensures Power10(0) == 1 && forall k: nat :: Power10(k + 1) == 10 * Power10(k)
  {
    hide UnitOf, ScaledDecimal, NatText, NatValue;
    var number := NatText(whole) + "." + fraction;
    LetterIsUnit(number, letter);
    FractionScaled(NatText(whole), fraction, UnitOf(letter).value);
  }

  lemma LetterIsUnit(number: string, letter: char)
    requires number != "" && IsDigit(number[0]) && UnitOf(letter).Some?
    ensures DiskSize(number + [letter]) == ScaledDecimal(number, UnitOf(letter).value)
  {
    hide UnitOf, ScaledDecimal;
    var s := number + [letter];
    UnitIsNoSpace(letter);
    NotTrimmed(s);
    assert s[..|s| - 1] == number && s[|s| - 1] == letter;
  }

  lemma FractionScaled(digits: string, fraction: string, unit: nat)
    requires digits != "" && AllDigits(digits) && AllDigits(fraction)
    ensures ScaledDecimal(digits + "." + fraction, unit) == NatValue(digits + fraction) * unit / Power10(|fraction|)
  {
    hide Power10, NatValue, DigitPrefix;
    var point := "." + fraction;
    var number := digits + point;
    assert digits + "." + fraction == number;
    assert number[0] == digits[0] && IsDigit(digits[0]);
    DigitPrefixStops(digits, point);
    assert number[|digits|..] == point;
    assert point[0] == '.' && point[1..] == fraction;
    DigitPrefixOfDigits(fraction);
    Digits(digits, fraction);
  }

  lemma Digits(a: string, b: string)
    requires AllDigits(a) && AllDigits(b) && a != ""
    ensures AllDigits(a + b) && a + b != []
  {
  }

  lemma UnitIsNoSpace(letter: char)
    requires UnitOf(letter).Some?
    ensures !IsSpace(letter)
  {
  }

  lemma {:induction false} DigitPrefixStops(digits: string, rest: string)
    requires AllDigits(digits) && rest != "" && !IsDigit(rest[0])
    ensures DigitPrefix(digits + rest) == digits
  {
    if digits == [] {
      assert digits + rest == rest;
    } else {
      assert (digits + rest)[1..] == digits[1..] + rest;
      DigitPrefixStops(digits[1..], rest);
      assert digits == [digits[0]] + digits[1..];
    }
  }

  /** Spaces, tabs and line ends around a size do not count. */
  lemma SpaceIsIgnored(n: nat, letter: char, c: char)
    requires UnitOf(letter).Some? && (c == ' ' || '\t' <= c <= '\r')
    ensures DiskSize([c] + (NatText(n) + [letter])) == n * UnitOf(letter).value
    ensures DiskSize(NatText(n) + [letter] + [c]) == n * UnitOf(letter).value
  {
    var s := NatText(n) + [letter];
    assert IsDigit(s[0]) && s[|s| - 1] == letter;
    NotTrimmed(s);
    DiskSizeWithUnit(n, letter);
    assert ([c] + s)[1..] == s && (s + [c])[..|s|] == s;
    assert TrimLeft(s + [c]) == s + [c];
    assert TrimLeft(s) == s;
  }

  // ----- Option lists

  /** Whatever stands before the first separator, the next character is one. */
  lemma {:induction false} BeforeStops(s: string, sep: char)
    ensures |Before(s, sep)| < |s| ==> s[|Before(s, sep)|] == sep
  {
    if s != [] && s[0] != sep {
      BeforeStops(s[1..], sep);
    }
  }

  /** An entry that does not begin with `size=` leaves the size alone. */
  lemma OtherEntry(size: int, entry: string)
    requires !("size=" <= entry)
    ensures SizeAfter(size, entry) == size
  {
    BeforeStops(entry, '=');
  }

  /** No option begins with `size=`. */
  predicate SizeFree(options: seq<string>) {
    forall i :: 0 <= i < |options| ==> !("size=" <= options[i])
  }

  lemma {:induction false} OtherEntries(front: seq<string>, after: seq<string>)
    requires SizeFree(after)
    ensures SizeOfEntries(front + after) == SizeOfEntries(front)
  {
    hide SizeAfter;
    if after == [] {
      assert front + after == front;
    } else {
      var all := front + after;
      var last := after[|after| - 1];
      assert all[..|all| - 1] == front + after[..|after| - 1];
      assert all[|all| - 1] == last;
      OtherEntries(front, after[..|after| - 1]);
      OtherEntry(SizeOfEntries(front), last);
    }
  }

  /** The text of a size option. */
  function SizeOption(n: nat, letter: char): string {
    "size=" + NatText(n) + [letter]
  }

  lemma SizeOptionReads(size: int, n: nat, letter: char)
    requires UnitOf(letter).Some?
    ensures SizeAfter(size, SizeOption(n, letter)) == n * UnitOf(letter).value
    ensures ',' !in SizeOption(n, letter)
  {
    hide DiskSize, UnitOf, NatText;
    var text := NatText(n) + [letter];
    var option := "size" + ['='] + text;
    CutAt("size", '=', text);
    DiskSizeWithUnit(n, letter);
    assert option == SizeOption(n, letter);
    UnitIsNoComma(letter);
    assert ',' !in text && ',' !in "size";
  }

  /** The last size option counts, wherever it stands. */
  lemma LastSizeCounts(before: seq<string>, n: nat, letter: char, after: seq<string>)
    requires UnitOf(letter).Some? && SizeFree(after)
    ensures SizeOfEntries(before + [SizeOption(n, letter)] + after) == n * UnitOf(letter).value
  {
    hide SizeAfter, SizeOption;
    var front := before + [SizeOption(n, letter)];
    OtherEntries(front, after);
    assert front[..|front| - 1] == before;
    SizeOptionReads(SizeOfEntries(before), n, letter);
  }

  predicate CommaFree(options: seq<string>) {
    forall o :: o in options ==> ',' !in o
  }

  /** An entry as Proxmox lists it: pool, volume and options. */
  function Entry(pool: string, volume: string, options: seq<string>): string
    requires options != []
  {
    pool + ":" + volume + "," + Join(options, ',')
  }

  /** How the entry is taken apart. */
  lemma EntryParts(pool: string, volume: string, options: seq<string>)
    requires ',' !in pool && ':' !in pool && ',' !in volume && options != [] && CommaFree(options)
    ensures var config := Entry(pool, volume, options);
      && Cut(config, ',') == (pool + ":" + volume, Some(Join(options, ',')))
      && Cut(pool + ":" + volume, ':') == (pool, Some(volume))
      && Cut(config, ':').0 == pool
      && Split(Join(options, ','), ',') == options
      && config != "" && config != "none"
  {
    hide Join;
    var tail := Join(options, ',');
    var config := Entry(pool, volume, options);
    assert config == (pool + ":" + volume) + [','] + tail;
    CutAt(pool + ":" + volume, ',', tail);
    assert pool + ":" + volume == pool + [':'] + volume;
    CutAt(pool, ':', volume);
    assert config == pool + [':'] + (volume + "," + tail);
    CutAt(pool, ':', volume + "," + tail);
    SplitJoin(options, ',');
    assert config[|pool|] == ':' && ':' !in "none";
  }

  /**
   A disk entry with any options in any order is read as its pool, and as the size that its
   last size option names; the name of the volume is read only when that size is 0.
   */
  lemma ListedDiskReadsBack(
      name: string, pool: string, volume: string, before: seq<string>, n: nat, letter: char, after: seq<string>)
    requires ',' !in pool && ':' !in pool && ',' !in volume && UnitOf(letter).Some?
    requires CommaFree(before) && CommaFree(after) && SizeFree(after)
    requires var config := Entry(pool, volume, before + [SizeOption(n, letter)] + after);
      !Contains(config, "media=cdrom") && !Contains(config, ",iso")
    ensures ReadDisk(name, Entry(pool, volume, before + [SizeOption(n, letter)] + after)) ==
      Some(StatusDisk(name, Device(name), pool,
        if n == 0 && DiskSize(volume) > 0 then DiskSize(volume) else n * UnitOf(letter).value, false))
  {
    hide SizeOfEntries, Contains, DiskSize, Device, Entry, SizeOption, Cut, UnitOf;
    var options := before + [SizeOption(n, letter)] + after;
    SizeOptionReads(0, n, letter);
    EntryParts(pool, volume, options);
    LastSizeCounts(before, n, letter, after);
    UnitIsPositive(letter);
    assert n * UnitOf(letter).value == 0 <==> n == 0;
  }

  lemma UnitIsNoComma(letter: char)
    requires UnitOf(letter).Some?
    ensures letter != ','
  {
  }

  lemma UnitIsPositive(letter: char)
    requires UnitOf(letter).Some?
    ensures UnitOf(letter).value > 0
  {
  }

  /** The same for an entry of the unused-disk map, media or not; here the volume's name is never read. */
  lemma ListedUnusedDiskReadsBack(
      name: string, pool: string, volume: string, before: seq<string>, n: nat, letter: char, after: seq<string>)
    requires ',' !in pool && ':' !in pool && ',' !in volume && UnitOf(letter).Some?
    requires CommaFree(before) && CommaFree(after) && SizeFree(after)
    ensures ReadUnusedDisk(name, Entry(pool, volume, before + [SizeOption(n, letter)] + after)) ==
      Some(StatusDisk(name, "/dev/sda", pool, n * UnitOf(letter).value, true))
  {
    hide SizeOfEntries, DiskSize, Entry, SizeOption, Cut, UnitOf;
    var options := before + [SizeOption(n, letter)] + after;
    SizeOptionReads(0, n, letter);
    EntryParts(pool, volume, options);
    LastSizeCounts(before, n, letter, after);
  }

  /** Without a size option the size is the number the volume begins with, or 0. */
  lemma UnsizedDiskReadsBack(name: string, pool: string, volume: string, options: seq<string>)
    requires ',' !in pool && ':' !in pool && ',' !in volume && options != [] && CommaFree(options)
    requires SizeFree(options)
    requires var config := Entry(pool, volume, options);
      !Contains(config, "media=cdrom") && !Contains(config, ",iso")
    ensures ReadDisk(name, Entry(pool, volume, options)) ==
      Some(StatusDisk(name, Device(name), pool, if DiskSize(volume) > 0 then DiskSize(volume) else 0, false))
    ensures ReadUnusedDisk(name, Entry(pool, volume, options)) == Some(StatusDisk(name, "/dev/sda", pool, 0, true))
  {
    hide Contains, DiskSize, Device, Entry, Cut, SizeAfter;
    EntryParts(pool, volume, options);
    OtherEntries([], options);
    assert [] + options == options;
  }

  // ----- Devices

  predicate IsController(c: string) {
    c == "scsi" || c == "virtio" || c == "sata" || c == "ide"
  }

  lemma {:induction false} LowerOfLower(a: string, b: string)
    requires forall i :: 0 <= i < |a| ==> !('A' <= a[i] <= 'Z')
    requires forall i :: 0 <= i < |b| ==> !('A' <= b[i] <= 'Z')
    ensures ToLower(a + b) == a + b
  {
    assert forall i :: 0 <= i < |a + b| ==> LowerChar((a + b)[i]) == (a + b)[i];
  }

  lemma ControllerFound(controller: string, rest: string)
    requires IsController(controller)
    ensures ControllerOf(controller + rest) == Some(controller)
    ensures forall i :: 0 <= i < |controller| ==> 'a' <= controller[i] <= 'z'
  {
    var name := controller + rest;
    assert controller <= name;
    assert name[0] == controller[0] && name[1] == controller[1];
    assert "scsi"[0] == 's' && "scsi"[1] == 'c' && "sata"[0] == 's' && "sata"[1] == 'a';
    assert "virtio"[0] == 'v' && "ide"[0] == 'i';
  }

  /**
   Disk i of a controller shows up as the i-th letter, under `vd` for virtio and under `sd`
   for the others, whatever follows the number in its name.
   */
  lemma ControllerDevice(controller: string, i: nat, rest: string)
    requires IsController(controller) && i < 55199 && (rest == "" || !IsDigit(rest[0]))
    ensures var family := if controller == "virtio" then "/dev/vd" else "/dev/sd";
      Device(controller + Itoa(i) + rest) == family + [('a' as int + i) as char]
  {
    hide IsController, Device, ToLower, Itoa;
    var index := Itoa(i) + ToLower(rest);
    ControllerFound(controller, index);
    LowerParts(controller, Itoa(i), rest);
    NumberScanned(i, ToLower(rest));
    assert controller + Itoa(i) + rest == controller + (Itoa(i) + rest);
    DeviceOf(controller + (Itoa(i) + rest), controller, index, i);
  }

  lemma DeviceOf(name: string, controller: string, index: string, i: nat)
    requires ToLower(name) == controller + index && ControllerOf(controller + index) == Some(controller)
    requires index != "" && ScanInt(index) == Ok(i)
    ensures Device(name) == (if controller == "virtio" then "/dev/vd" else "/dev/sd") + [Letter(i)]
  {
    hide ControllerOf, ScanInt, Letter, ToLower;
    var lower := controller + index;
    assert controller <= lower && lower[|controller|..] == index;
  }

  lemma NumberScanned(i: nat, rest: string)
    requires IsInt64(i) && (rest == "" || !IsDigit(rest[0]))
    ensures ScanInt(Itoa(i) + rest) == Ok(i)
  {
    assert IsDigit(NatText(i)[0]);
    if rest == "" {
      DigitPrefixOfDigits(NatText(i));
      assert Itoa(i) + rest == Itoa(i);
    } else {
      DigitPrefixStops(NatText(i), rest);
    }
  }

  lemma LowerParts(controller: string, number: string, rest: string)
    requires forall i :: 0 <= i < |controller| ==> 'a' <= controller[i] <= 'z'
    requires AllDigits(number)
    ensures ToLower(controller + (number + rest)) == controller + (number + ToLower(rest))
    ensures rest != "" && !IsDigit(rest[0]) ==> ToLower(rest) != "" && !IsDigit(ToLower(rest)[0])
    ensures rest == "" ==> ToLower(rest) == ""
  {
    var s := controller + (number + rest);
    assert forall i :: 0 <= i < |s| ==> LowerChar(s[i]) == (controller + (number + ToLower(rest)))[i];
  }

  /** A controller name followed by what is no number is no disk of that controller. */
  lemma NoIndex(controller: string, rest: string)
    requires IsController(controller) && rest != ""
    requires !IsDigit(rest[0]) && rest[0] != '-' && rest[0] != '+'
    ensures Device(controller + rest) == "/dev/" + ToLower(controller + rest)
  {
    hide ControllerOf, IsController;
    ControllerFound(controller, ToLower(rest));
    LowerParts(controller, "", rest);
    assert controller + ("" + rest) == controller + rest;
    assert controller + ("" + ToLower(rest)) == controller + ToLower(rest);
    var name := ToLower(controller + rest);
    assert name == controller + ToLower(rest) && controller <= name && name[|controller|..] == ToLower(rest);
    assert ToLower(rest)[0] == LowerChar(rest[0]);
    assert DigitPrefix(ToLower(rest)) == "";
  }

  /** A bare controller name is its disk 0, and a name of no controller is the device's name, in lower case. */
  lemma OtherDevice(name: string)
    ensures IsController(name) ==> Device(name) == Device(name + "0")
    ensures
      (forall c :: IsController(c) ==> !(c <= ToLower(name))) ==> Device(name) == "/dev/" + ToLower(name)
  {
    hide ScanInt, Letter, ToLower;
    if IsController(name) {
      BareController(name);
    }
    assert IsController("scsi") && IsController("virtio") && IsController("sata") && IsController("ide");
  }

  lemma BareController(controller: string)
    requires IsController(controller)
    ensures Device(controller) == Device(controller + "0")
  {
    hide ControllerOf, IsController;
    ControllerFound(controller, "");
    assert controller + "" == controller;
    LowerOfLower(controller, "");
    assert Itoa(0) == NatText(0) == [DigitChar(0)] == "0";
    ControllerDevice(controller, 0, "");
    assert controller + Itoa(0) + "" == controller + "0";
    assert controller[|controller|..] == "";
  }

  /** The case of a disk's name does not matter. */
  lemma DeviceIgnoresCase(name: string)
    ensures Device(ToLower(name)) == Device(name)
    ensures |ToLower(name)| == |name| && forall i :: 0 <= i < |name| ==>
      ToLower(name)[i] == if 'A' <= name[i] <= 'Z' then (name[i] as int + 32) as char else name[i]
  {
    hide ControllerOf, ScanInt, Letter;
    assert forall i :: 0 <= i < |name| ==> LowerChar(LowerChar(name[i])) == LowerChar(name[i]);
    assert ToLower(ToLower(name)) == ToLower(name);
  }
}
