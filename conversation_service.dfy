/**
 * The conversation service: a single slot holding the context of the person
 * currently in front of the kiosk. The slot holds the caller's dictionary
 * itself, not a copy, so later changes the caller makes to it are seen
 * through the slot.
 */
module Conversation {
  import opened Values

  class ConversationService {
    /** The current context; starts out as an empty dictionary. */
    var context: MutableDict

    constructor ()
      ensures fresh(context) && context.entries == map[]
    {
      context := new MutableDict(map[]);
    }

    /** `update_context`: the slot now holds `personData`; nothing is merged. */
    method UpdateContext(personData: MutableDict)
      modifies this
      ensures context == personData
    {
      context := personData;
    }

    /** `get_context`: the dictionary in the slot; nothing changes. */
    method GetContext() returns (r: MutableDict)
      ensures r == context
    {
      r := context;
    }

    /** `clear_context`: the slot now holds a new empty dictionary. */
    method ClearContext()
      modifies this
      ensures fresh(context) && context.entries == map[]
    {
      context := new MutableDict(map[]);
    }
  }

  /**
   * A session as the endpoints drive it: a fresh service, two updates with
   * their reads, then a clear and a read. The second read sees exactly the
   * second context (no key of the first survives) and the last read sees an
   * empty context.
   */
  method Session(first: Dict, second: Dict)
    returns (initial: Dict, seen1: Dict, seen2: Dict, cleared: Dict)
    ensures initial == map[]
    ensures seen1 == first
    ensures seen2 == second
    ensures forall k :: k in first && k !in second ==> k !in seen2
    ensures cleared == map[]
  {
    var svc := new ConversationService();
    var c := svc.GetContext();
    initial := c.entries;
    var d1 := new MutableDict(first);
    svc.UpdateContext(d1);
    c := svc.GetContext();
    seen1 := c.entries;
    var d2 := new MutableDict(second);
    svc.UpdateContext(d2);
    c := svc.GetContext();
    seen2 := c.entries;
    svc.ClearContext();
    c := svc.GetContext();
    cleared := c.entries;
  }

  /**
   * The slot shares the caller's dictionary: an entry the caller writes into
   * it after `update_context` is in the context `get_context` returns.
   */
  method SharedWithCaller(data: Dict, key: string, v: Value) returns (seen: Dict)
    ensures seen == data[key := v]
    ensures key in seen && seen[key] == v
  {
    var svc := new ConversationService();
    var d := new MutableDict(data);
    svc.UpdateContext(d);
    d.entries := d.entries[key := v];
    var c := svc.GetContext();
    seen := c.entries;
  }
}
