/** `internal/helpers/providerid`: printing and parsing `proxmox://node/vmID`. */
module ProviderId {
  import opened Wrappers
  import opened Text

  /** A place in the Proxmox inventory. */
  datatype Slot = Slot(node: string, id: int)

  const SCHEME := "proxmox:"
  const PREFIX := "proxmox://"

  function Build(slot: Slot): string {
    PREFIX + slot.node + "/" + Itoa(slot.id)
  }

  function Parse(providerID: string): (r: Result<Slot>)
  {
    if providerID == "" then Err
    else
      var parts := Split(providerID, '/');
      if |parts| != 4 || parts[0] != SCHEME then Err
      else
        match Atoi(parts[3])
        case Err => Err
        case Ok(id) => Ok(Slot(parts[2], id))
  }

  /** A slot whose provider ID can be read back: no `/` in the node name, and an ID Go's `int` holds. */
  predicate Addressable(slot: Slot) {
    '/' !in slot.node && IsInt64(slot.id)
  }

  lemma NoSlashInItoa(n: int)
    ensures '/' !in Itoa(n)
  {
    ItoaChars(n);
  }

  lemma BuildAsJoin(slot: Slot)
    ensures Build(slot) == Join([SCHEME, "", slot.node, Itoa(slot.id)], '/')
  {
    var id := Itoa(slot.id);
    assert [SCHEME, "", slot.node, id][1..] == ["", slot.node, id];
    assert ["", slot.node, id][1..] == [slot.node, id];
    assert [slot.node, id][1..] == [id];
    assert Join([slot.node, id], '/') == slot.node + "/" + id;
    assert Join(["", slot.node, id], '/') == "/" + (slot.node + "/" + id);
  }

  lemma SlashesInPrefix()
    ensures Count(PREFIX, '/') == 2 && Count("/", '/') == 1
  {
    assert "/"[1..] == "" && "//"[1..] == "/";
    assert ':' != '/' && '/' !in SCHEME;
    CountZero(SCHEME, '/');
    CountAppend(SCHEME, "//", '/');
    assert PREFIX == SCHEME + "//";
  }

  lemma SlashesInBuild(slot: Slot)
    ensures Count(Build(slot), '/') == 3 + Count(slot.node, '/')
  {
    hide Itoa;
    var id := Itoa(slot.id);
    NoSlashInItoa(slot.id);
    CountZero(id, '/');
    SlashesInPrefix();
    CountAppend(PREFIX, slot.node, '/');
    CountAppend(PREFIX + slot.node, "/", '/');
    CountAppend(PREFIX + slot.node + "/", id, '/');
  }

  /** The round trip, exactly: a built ID parses if and only if its slot is addressable, and then to that slot. */
  lemma ParseBuild(slot: Slot)
    ensures Parse(Build(slot)) == if Addressable(slot) then Ok(slot) else Err
  {
    AtoiItoa(slot.id);
    if '/' in slot.node {
      SplitLength(Build(slot), '/');
      SlashesInBuild(slot);
      CountZero(slot.node, '/');
    } else {
      NoSlashInItoa(slot.id);
      BuildAsJoin(slot);
      SplitJoin([SCHEME, "", slot.node, Itoa(slot.id)], '/');
    }
  }

  /** Different addressable slots get different provider IDs. */
  lemma BuildInjective(a: Slot, b: Slot)
    requires Addressable(a) && Addressable(b)
    requires Build(a) == Build(b)
    ensures a == b
  {
    ParseBuild(a);
    ParseBuild(b);
  }

  /** Every accepted text names an addressable slot, and rebuilding it changes spelling only. */
  lemma ParseCanonical(s: string)
    requires Parse(s).Ok?
    ensures Addressable(Parse(s).value)
    ensures Parse(Build(Parse(s).value)) == Parse(s)
  {
    var parts := Split(s, '/');
    assert '/' !in parts[2];
    ParseBuild(Parse(s).value);
  }

  /** Acceptance is looser than printing: the second part is never looked at, and the number may be signed or padded. */
  lemma ParseIgnoresSecondPart(ignored: string, slot: Slot)
    requires Addressable(slot) && '/' !in ignored
    ensures Parse(SCHEME + "/" + ignored + "/" + slot.node + "/" + Itoa(slot.id)) == Ok(slot)
  {
    var id := Itoa(slot.id);
    var parts := [SCHEME, ignored, slot.node, id];
    assert parts[1..] == [ignored, slot.node, id] && parts[1..][1..] == [slot.node, id];
    assert [slot.node, id][1..] == [id];
    assert Join([slot.node, id], '/') == slot.node + "/" + id;
    assert Join(parts[1..], '/') == ignored + "/" + (slot.node + "/" + id);
    assert Join(parts, '/') == SCHEME + "/" + (ignored + "/" + (slot.node + "/" + id));
    assert Join(parts, '/') == SCHEME + "/" + ignored + "/" + slot.node + "/" + id;
    NoSlashInItoa(slot.id);
    AtoiItoa(slot.id);
    SplitJoin(parts, '/');
  }

  /**
   The accepted texts, exactly: `proxmox:`, anything, the node and a number, with a slash
   between each two of them.
   */
  lemma AcceptedTexts(s: string, slot: Slot)
    ensures Parse(s) == Ok(slot) <==>
      exists ignored, number ::
        && '/' !in ignored && '/' !in slot.node && '/' !in number && Atoi(number) == Ok(slot.id)
        && s == FourParts(ignored, slot.node, number)
  {
    hide Atoi;
    if Parse(s) == Ok(slot) {
      var parts := Split(s, '/');
      JoinSplit(s, '/');
      FourJoined(parts[1], parts[2], parts[3]);
      assert parts == ["proxmox:", parts[1], parts[2], parts[3]];
      assert s == FourParts(parts[1], slot.node, parts[3]);
    }
    forall ignored, number |
      && '/' !in ignored && '/' !in slot.node && '/' !in number && Atoi(number) == Ok(slot.id)
      && s == FourParts(ignored, slot.node, number)
      ensures Parse(s) == Ok(slot)
    {
      FourJoined(ignored, slot.node, number);
      SplitJoin(["proxmox:", ignored, slot.node, number], '/');
    }
  }

  function FourParts(ignored: string, node: string, number: string): string {
    "proxmox:/" + ignored + "/" + node + "/" + number
  }

  lemma FourJoined(ignored: string, node: string, number: string)
    ensures Join(["proxmox:", ignored, node, number], '/') == FourParts(ignored, node, number)
    ensures FourParts(ignored, node, number) != ""
  {
    var parts := ["proxmox:", ignored, node, number];
    assert parts[1..] == [ignored, node, number] && parts[1..][1..] == [node, number];
    assert [node, number][1..] == [number];
    assert Join([node, number], '/') == node + "/" + number;
    assert Join(parts[1..], '/') == ignored + "/" + (node + "/" + number);
    assert Join(parts, '/') == "proxmox:" + "/" + (ignored + "/" + (node + "/" + number));
  }

  /** What is printed: the accepted text with nothing in its second part and the plain decimal number. */
  lemma BuiltText(slot: Slot)
    ensures Build(slot) == FourParts("", slot.node, Itoa(slot.id))
  {
    hide Itoa;
  }
}
