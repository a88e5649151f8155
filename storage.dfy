/**
 * The browser-side persistence layer: one storage key holds the list of conversations, another
 * the settings record. Saving upserts by id, deleting filters by id, and every storage failure
 * degrades to "nothing stored" on reads and to "no effect" on writes.
 */
module Storage {
  import opened Options
  import opened Schema
  import opened Text

  /** The title of a conversation without a first message. */
  const UNTITLED: string := "Ny konversation"

  /** Titles keep this many characters of the first message. */
  const TITLE_LIMIT: nat := 50

  /**
   * What one storage key reads back as: nothing stored (or stored text that is empty), text that
   * does not parse, or a value written by this layer.
   */
  datatype Slot<T> = Absent | Unreadable | Holds(value: T)

  /**
   * The record written under the settings key. The declared interface names only the model and
   * the temperature; the shell also writes its system prompt and preset id, and records written
   * before those existed lack them.
   */
  datatype ChatSettings = ChatSettings(
    selectedModel: string,
    temperature: Number,
    systemPrompt: Option<string>,
    presetId: Option<string>)

  /** `getConversations()` on a slot: whatever cannot be read counts as no conversations. */
  function ListIn(slot: Slot<seq<Conversation>>): (r: seq<Conversation>)
    ensures slot.Holds? ==> r == slot.value
    ensures !slot.Holds? ==> r == []
  {
    if slot.Holds? then slot.value else []
  }

  /** `getSettings()` on a slot: whatever cannot be read counts as `null`. */
  function SettingsIn(slot: Slot<ChatSettings>): (r: Option<ChatSettings>)
    ensures r.Some? <==> slot.Holds?
    ensures r.Some? ==> r.value == slot.value
  {
    if slot.Holds? then Some(slot.value) else None
  }

  /** `list.findIndex((c) => c.id === id)`: the first index with the id, or -1. */
  function FindIndex(list: seq<Conversation>, id: string): (k: int)
    ensures -1 <= k < |list|
    ensures k == -1 <==> forall i :: 0 <= i < |list| ==> list[i].id != id
    ensures k >= 0 ==> list[k].id == id && forall i :: 0 <= i < k ==> list[i].id != id
  {
    if |list| == 0 then -1
    else if list[0].id == id then 0
    else
      var k := FindIndex(list[1..], id);
      if k == -1 then -1 else k + 1
  }

  /** `list.find((c) => c.id === id)`: the first entry with the id. */
  function FindById(list: seq<Conversation>, id: string): (r: Option<Conversation>)
    ensures r.Some? ==> r.value in list && r.value.id == id
    ensures r.None? <==> forall i :: 0 <= i < |list| ==> list[i].id != id
    ensures forall k :: 0 <= k < |list| && list[k].id == id && (forall i :: 0 <= i < k ==> list[i].id != id)
                        ==> r == Some(list[k])
  {
    if |list| == 0 then None
    else if list[0].id == id then Some(list[0])
    else FindById(list[1..], id)
  }

  /**
   * The list after saving `c`, defined entry by entry: the first entry with `c`'s id becomes `c`,
   * and when there is none `c` goes last.
   */
  function Upsert(list: seq<Conversation>, c: Conversation): seq<Conversation> {
    if |list| == 0 then [c]
    else if list[0].id == c.id then [c] + list[1..]
    else [list[0]] + Upsert(list[1..], c)
  }

  /** `list.filter((c) => c.id !== id)`. */
  function RemoveId(list: seq<Conversation>, id: string): (r: seq<Conversation>)
    ensures |r| <= |list|
    ensures forall c :: c in r <==> c in list && c.id != id
  {
    if |list| == 0 then []
    else if list[0].id == id then RemoveId(list[1..], id)
    else [list[0]] + RemoveId(list[1..], id)
  }

  /** No two entries of a list share an id. */
  ghost predicate DistinctIds(list: seq<Conversation>) {
    forall i, j :: 0 <= i < j < |list| ==> list[i].id != list[j].id
  }

  /** When the id is already stored, saving replaces its first entry in place and nothing else. */
  lemma {:induction false} UpsertReplaces(list: seq<Conversation>, c: Conversation, k: nat)
    requires k < |list| && list[k].id == c.id
    requires forall i :: 0 <= i < k ==> list[i].id != c.id
    ensures Upsert(list, c) == list[k := c]
  {
    if k > 0 {
      UpsertReplaces(list[1..], c, k - 1);
      assert list[k := c] == [list[0]] + list[1..][k - 1 := c];
    }
  }

  /** When the id is new, saving appends `c`: the list grows by exactly one. */
  lemma {:induction false} UpsertAppends(list: seq<Conversation>, c: Conversation)
    requires forall i :: 0 <= i < |list| ==> list[i].id != c.id
    ensures Upsert(list, c) == list + [c]
    ensures |Upsert(list, c)| == |list| + 1
  {
    if |list| > 0 {
      UpsertAppends(list[1..], c);
      assert list + [c] == [list[0]] + (list[1..] + [c]);
    }
  }

  /** The index-based save of the source and the entry-by-entry definition agree. */
  lemma UpsertByIndex(list: seq<Conversation>, c: Conversation)
    ensures Upsert(list, c) == if FindIndex(list, c.id) >= 0 then list[FindIndex(list, c.id) := c] else list + [c]
  {
    var k := FindIndex(list, c.id);
    if k >= 0 {
      UpsertReplaces(list, c, k);
    } else {
      UpsertAppends(list, c);
    }
  }

  /** After a save, looking up the saved id gives the saved conversation, whatever was stored. */
  lemma {:induction false} UpsertThenFind(list: seq<Conversation>, c: Conversation)
    ensures FindById(Upsert(list, c), c.id) == Some(c)
  {
    if |list| > 0 && list[0].id != c.id {
      UpsertThenFind(list[1..], c);
    }
  }

  /** A save leaves the lookup of every other id as it was. */
  lemma {:induction false} UpsertKeepsOthers(list: seq<Conversation>, c: Conversation, id: string)
    requires id != c.id
    ensures FindById(Upsert(list, c), id) == FindById(list, id)
  {
    if |list| > 0 && list[0].id != c.id && list[0].id != id {
      UpsertKeepsOthers(list[1..], c, id);
    }
  }

  /** Saving the same conversation twice stores the same list as saving it once. */
  lemma {:induction false} UpsertIdempotent(list: seq<Conversation>, c: Conversation)
    ensures Upsert(Upsert(list, c), c) == Upsert(list, c)
  {
    if |list| == 0 {
    } else if list[0].id == c.id {
    } else {
      UpsertIdempotent(list[1..], c);
    }
  }

  /** Saving keeps ids distinct, and the saved id then occurs exactly once. */
  lemma {:induction false} UpsertKeepsDistinct(list: seq<Conversation>, c: Conversation)
    requires DistinctIds(list)
    ensures DistinctIds(Upsert(list, c))
    ensures forall i :: 0 <= i < |Upsert(list, c)| && Upsert(list, c)[i].id == c.id ==> Upsert(list, c)[i] == c
  {
    var k := FindIndex(list, c.id);
    UpsertByIndex(list, c);
    var r := Upsert(list, c);
    if k >= 0 {
      assert forall i :: 0 <= i < |r| && i != k ==> r[i] == list[i] && list[i].id != c.id;
    } else {
      assert forall i :: 0 <= i < |list| ==> r[i] == list[i];
    }
  }

  /** Deleting an id that is not stored leaves the list unchanged. */
  lemma {:induction false} RemoveAbsent(list: seq<Conversation>, id: string)
    requires forall i :: 0 <= i < |list| ==> list[i].id != id
    ensures RemoveId(list, id) == list
  {
    if |list| > 0 {
      RemoveAbsent(list[1..], id);
    }
  }

  /** Deleting keeps the rest in their original order: it distributes over concatenation. */
  lemma {:induction false} RemoveDistributes(a: seq<Conversation>, b: seq<Conversation>, id: string)
    ensures RemoveId(a + b, id) == RemoveId(a, id) + RemoveId(b, id)
  {
    if |a| > 0 {
      assert (a + b)[1..] == a[1..] + b;
      assert (a + b)[0] == a[0];
      RemoveDistributes(a[1..], b, id);
      if a[0].id == id {
        assert RemoveId(a + b, id) == RemoveId(a[1..] + b, id);
        assert RemoveId(a, id) == RemoveId(a[1..], id);
      } else {
        assert RemoveId(a + b, id) == [a[0]] + RemoveId(a[1..] + b, id);
        assert RemoveId(a, id) == [a[0]] + RemoveId(a[1..], id);
      }
    } else {
      assert a + b == b;
    }
  }

  /** After a delete no entry has the id, and the lookup of every other id is unchanged. */
  lemma {:induction false} RemoveThenFind(list: seq<Conversation>, id: string, other: string)
    requires other != id
    ensures FindById(RemoveId(list, id), id) == None
    ensures FindById(RemoveId(list, id), other) == FindById(list, other)
  {
    if |list| > 0 {
      RemoveThenFind(list[1..], id, other);
    }
  }

  /** `content.substring(0, 50) + (content.length > 50 ? "..." : "")`. */
  function Title(content: string): (r: string)
    ensures |content| <= TITLE_LIMIT ==> r == content
    ensures |content| > TITLE_LIMIT ==> r == content[..TITLE_LIMIT] + "..." && |r| == TITLE_LIMIT + 3
    ensures r == [] <==> content == []
  {
    Take(content, TITLE_LIMIT) + (if |content| > TITLE_LIMIT then "..." else "")
  }

  /**
   * `createConversation(model, temperature, initialMessage)`; `id` is the fresh id and
   * `createdAt`, `updatedAt` are the two clock readings it takes.
   */
  function CreateConversation(
    id: string, createdAt: Number, updatedAt: Number,
    model: string, temperature: Number, initial: Option<Message>): (c: Conversation)
    ensures c.id == id && c.model == model && c.temperature == temperature
    ensures c.createdAt == createdAt && c.updatedAt == updatedAt
    ensures initial.None? ==> c.title == UNTITLED && c.messages == []
    ensures initial.Some? ==> c.messages == [initial.value]
    ensures initial.Some? && |initial.value.content| <= TITLE_LIMIT ==> c.title == initial.value.content
    ensures initial.Some? && |initial.value.content| > TITLE_LIMIT
            ==> c.title == initial.value.content[..TITLE_LIMIT] + "..."
  {
    Conversation(
      id,
      if initial.Some? then Title(initial.value.content) else UNTITLED,
      if initial.Some? then [initial.value] else [],
      model, temperature, createdAt, updatedAt)
  }

  /**
   * The conversations slot after `saveConversation(c)`: the upserted list when the write goes
   * through, the slot as it was when it does not.
   */
  function AfterSave(slot: Slot<seq<Conversation>>, c: Conversation, writeOk: bool): Slot<seq<Conversation>> {
    if writeOk then Holds(Upsert(ListIn(slot), c)) else slot
  }

  /** A save changes the lookup of no other id, whether or not its write goes through. */
  lemma AfterSaveKeepsOthers(slot: Slot<seq<Conversation>>, c: Conversation, writeOk: bool, id: string)
    requires id != c.id
    ensures FindById(ListIn(AfterSave(slot, c, writeOk)), id) == FindById(ListIn(slot), id)
  {
    UpsertKeepsOthers(ListIn(slot), c, id);
  }

  /** Every conversation other than `id` reads the same from `after` as from `before`. */
  ghost predicate OthersKept(before: Slot<seq<Conversation>>, after: Slot<seq<Conversation>>, id: string) {
    forall other | other != id :: FindById(ListIn(after), other) == FindById(ListIn(before), other)
  }

  /**
   * One save of `c1`, or a save of `c1` followed by a save of `c2`, both of conversation `id`,
   * leave every other conversation as it was.
   */
  lemma SavesKeepOthers(before: Slot<seq<Conversation>>, after: Slot<seq<Conversation>>, id: string,
                        c1: Conversation, ok1: bool, c2: Conversation, ok2: bool, twice: bool)
    requires c1.id == id && c2.id == id
    requires after == if twice then AfterSave(AfterSave(before, c1, ok1), c2, ok2) else AfterSave(before, c1, ok1)
    ensures OthersKept(before, after, id)
  {
    forall other | other != id
      ensures FindById(ListIn(after), other) == FindById(ListIn(before), other)
    {
      AfterSaveKeepsOthers(before, c1, ok1, other);
      if twice {
        AfterSaveKeepsOthers(AfterSave(before, c1, ok1), c2, ok2, other);
      }
    }
  }

  /**
   * The two storage keys. Each write takes `writeOk`, false when the browser refuses the write
   * (the source catches that and carries on).
   */
  class Store {
    var conversations: Slot<seq<Conversation>>
    var settings: Slot<ChatSettings>

    constructor (conversations: Slot<seq<Conversation>>, settings: Slot<ChatSettings>)
      ensures this.conversations == conversations && this.settings == settings
    {
      this.conversations := conversations;
      this.settings := settings;
    }

    /** `getSettings()`. */
    function StoredSettings(): (r: Option<ChatSettings>)
      reads this
      ensures r.None? <==> !settings.Holds?
      ensures settings.Holds? ==> r == Some(settings.value)
    {
      SettingsIn(settings)
    }

    /** `saveConversation(conversation)`: read the list, replace or append, write it back. */
    method SaveConversation(c: Conversation, writeOk: bool)
      modifies this`conversations
      ensures conversations == AfterSave(old(conversations), c, writeOk)
      ensures writeOk ==> conversations == Holds(Upsert(old(ListIn(conversations)), c))
      ensures !writeOk ==> conversations == old(conversations)
      ensures writeOk ==> FindById(ListIn(conversations), c.id) == Some(c)
    {
      var list := ListIn(conversations);
      var existing := FindIndex(list, c.id);
      if existing >= 0 {
        list := list[existing := c];
      } else {
        list := list + [c];
      }
      UpsertByIndex(old(ListIn(conversations)), c);
      if writeOk {
        conversations := Holds(list);
        UpsertThenFind(old(ListIn(conversations)), c);
      }
    }

    /** `getConversation(id)`. */
    method GetConversation(id: string) returns (r: Option<Conversation>)
      ensures r == FindById(ListIn(conversations), id)
    {
      var list := ListIn(conversations);
      r := FindById(list, id);
    }

    /** `deleteConversation(id)`: read the list, drop every entry with the id, write it back. */
    method DeleteConversation(id: string, writeOk: bool)
      modifies this`conversations
      ensures writeOk ==> conversations == Holds(RemoveId(old(ListIn(conversations)), id))
      ensures !writeOk ==> conversations == old(conversations)
      ensures writeOk ==> forall c :: c in ListIn(conversations) ==> c.id != id
    {
      var list := ListIn(conversations);
      var filtered := RemoveId(list, id);
      if writeOk {
        conversations := Holds(filtered);
      }
    }

    /** `saveSettings(settings)`; when the write goes through, `getSettings()` gives it back. */
    method SaveSettings(s: ChatSettings, writeOk: bool)
      modifies this`settings
      ensures settings == if writeOk then Holds(s) else old(settings)
      ensures writeOk ==> StoredSettings() == Some(s)
    {
      if writeOk {
        settings := Holds(s);
      }
    }

    /**
     * `clearAllData()`: remove the conversations key, then the settings key; a removal that
     * throws skips the rest.
     */
    method ClearAllData(firstOk: bool, secondOk: bool)
      modifies this
      ensures conversations == if firstOk then Absent else old(conversations)
      ensures settings == if firstOk && secondOk then Absent else old(settings)
      ensures firstOk && secondOk ==> ListIn(conversations) == [] && StoredSettings() == None
    {
      if firstOk {
        conversations := Absent;
        if secondOk {
          settings := Absent;
        }
      }
    }
  }
}
