/** The three anchors a seek offset is measured from, and the strings PHP callers pass for them. */
module SeekOrigins {
  import opened Wrappers

  datatype SeekOrigin = Start | End | Current {

    /** The string constant the PHP class uses for this origin. */
    function Name(): string
    {
      match this
      case Start => "start"
      case End => "end"
      case Current => "current"
    }
  }

  /** Which origin a seek_origin string selects; None for a string that matches no case of the switch. */
  function OriginOf(name: string): (o: Option<SeekOrigin>)
    ensures o.Some? ==> o.value.Name() == name
    ensures o.None? ==> name != Start.Name() && name != End.Name() && name != Current.Name()
  {
    if name == "start" then Some(Start)
    else if name == "end" then Some(End)
    else if name == "current" then Some(Current)
    else None
  }

  /** The three constants are distinct, so each one selects its own origin. */
  lemma OriginOfName(o: SeekOrigin)
    ensures OriginOf(o.Name()) == Some(o)
  {
    assert "start" != "end" && "start" != "current" && "end" != "current" by {
      assert "start"[0] != "end"[0] && "start"[0] != "current"[0] && "end"[0] != "current"[0];
    }
  }
}
