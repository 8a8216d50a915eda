/**
 * The alarm state-change message the handler receives, before and after decoding.
 *
 * The raw message is the decoded JSON object with every key it may or may not
 * carry: an absent key is `None`. `Decode` performs the handler's lookups in the
 * order the handler performs them and stops at the first one that fails, which
 * is where the handler would raise (a missing key, or an empty `Dimensions` list).
 */
module AlarmMessage {
  import opened Wrappers

  /** An alarm state. The handler compares the raw strings and accepts any other text. */
  datatype AlarmState = OK | ALARM | INSUFFICIENT_DATA | Other(text: string)
  {
    /** The state as it appears in the message. */
    function Text(): string
    {
      match this
      case OK => "OK"
      case ALARM => "ALARM"
      case INSUFFICIENT_DATA => "INSUFFICIENT_DATA"
      case Other(t) => t
    }

    /** An `Other` state never carries one of the three known names. */
    predicate Canonical()
    {
      Other? ==> text != "OK" && text != "ALARM" && text != "INSUFFICIENT_DATA"
    }
  }

  /** Reads a state value; never fails, since the handler accepts any string. */
  function ParseState(s: string): (st: AlarmState)
    ensures st.Text() == s
    ensures st.Canonical()
    ensures st == OK <==> s == "OK"
    ensures st == ALARM <==> s == "ALARM"
  {
    if s == "OK" then OK
    else if s == "ALARM" then ALARM
    else if s == "INSUFFICIENT_DATA" then INSUFFICIENT_DATA
    else Other(s)
  }

  lemma ParseStateText(st: AlarmState)
    requires st.Canonical()
    ensures ParseState(st.Text()) == st
  {
  }

  /** One element of `Trigger.Dimensions`. */
  datatype RawDimension = RawDimension(value: Option<string>)

  /** The `Trigger` object of the message. */
  datatype RawTrigger = RawTrigger(dimensions: Option<seq<RawDimension>>)

  /** The decoded JSON message, restricted to the keys the handler reads. */
  datatype RawMessage = RawMessage(
    alarmName: Option<string>,
    oldStateValue: Option<string>,
    newStateValue: Option<string>,
    trigger: Option<RawTrigger>)

  /** The typed message the handler acts on. */
  datatype Message = Message(
    alarmName: string,
    oldState: AlarmState,
    newState: AlarmState,
    targetId: string)

  /** The handler's lookups, in the order it performs them. */
  datatype Lookup =
    | AlarmNameKey      // message['AlarmName']
    | OldStateKey       // message['OldStateValue']
    | NewStateKey       // message['NewStateValue']
    | TriggerKey        // message['Trigger']
    | DimensionsKey     // ['Dimensions']
    | FirstDimension    // [0]
    | ValueKey          // ['value']
  {
    function Rank(): nat
    {
      match this
      case AlarmNameKey => 0
      case OldStateKey => 1
      case NewStateKey => 2
      case TriggerKey => 3
      case DimensionsKey => 4
      case FirstDimension => 5
      case ValueKey => 6
    }

    /** The lookup performed just before this one. */
    function Previous(): (p: Lookup)
      requires this != AlarmNameKey
      ensures p.Rank() + 1 == Rank()
    {
      match this
      case OldStateKey => AlarmNameKey
      case NewStateKey => OldStateKey
      case TriggerKey => NewStateKey
      case DimensionsKey => TriggerKey
      case FirstDimension => DimensionsKey
      case ValueKey => FirstDimension
    }
  }

  /** Decoding fails at the first lookup that does not succeed. */
  datatype DecodeError = DecodeError(failed: Lookup)

  /** The lookup `l` and every lookup before it succeed on `raw`. */
  predicate Found(raw: RawMessage, l: Lookup)
    decreases l.Rank()
  {
    match l
    case AlarmNameKey => raw.alarmName.Some?
    case OldStateKey => Found(raw, AlarmNameKey) && raw.oldStateValue.Some?
    case NewStateKey => Found(raw, OldStateKey) && raw.newStateValue.Some?
    case TriggerKey => Found(raw, NewStateKey) && raw.trigger.Some?
    case DimensionsKey => Found(raw, TriggerKey) && raw.trigger.value.dimensions.Some?
    case FirstDimension => Found(raw, DimensionsKey) && |raw.trigger.value.dimensions.value| > 0
    case ValueKey => Found(raw, FirstDimension) && raw.trigger.value.dimensions.value[0].value.Some?
  }

  /**
   * Field extraction: the message is usable exactly when every lookup succeeds;
   * on success each field is the one read, and on failure the error names the
   * first lookup that fails, all earlier ones having succeeded.
   */
  function Decode(raw: RawMessage): (r: Result<Message, DecodeError>)
    ensures r.Ok? <==> Found(raw, ValueKey)
    ensures r.Ok? ==>
      && raw.alarmName == Some(r.value.alarmName)
      && raw.oldStateValue == Some(r.value.oldState.Text())
      && raw.newStateValue == Some(r.value.newState.Text())
      && raw.trigger.value.dimensions.value[0].value == Some(r.value.targetId)
      && r.value.oldState.Canonical() && r.value.newState.Canonical()
    ensures r.Err? ==> !Found(raw, r.error.failed)
    ensures r.Err? && r.error.failed != AlarmNameKey ==> Found(raw, r.error.failed.Previous())
  {
    if raw.alarmName.None? then Err(DecodeError(AlarmNameKey))
    else if raw.oldStateValue.None? then Err(DecodeError(OldStateKey))
    else if raw.newStateValue.None? then Err(DecodeError(NewStateKey))
    else if raw.trigger.None? then Err(DecodeError(TriggerKey))
    else if raw.trigger.value.dimensions.None? then Err(DecodeError(DimensionsKey))
    else if |raw.trigger.value.dimensions.value| == 0 then Err(DecodeError(FirstDimension))
    else if raw.trigger.value.dimensions.value[0].value.None? then Err(DecodeError(ValueKey))
    else
      Ok(Message(
        raw.alarmName.value,
        ParseState(raw.oldStateValue.value),
        ParseState(raw.newStateValue.value),
        raw.trigger.value.dimensions.value[0].value.value))
  }

  /** The message as the alarm service writes it: every key present, one dimension. */
  function Encode(m: Message): (raw: RawMessage)
    ensures Found(raw, ValueKey)
  {
    RawMessage(
      Some(m.alarmName),
      Some(m.oldState.Text()),
      Some(m.newState.Text()),
      Some(RawTrigger(Some([RawDimension(Some(m.targetId))]))))
  }

  /** Decoding inverts encoding for every message whose states are canonical. */
  lemma DecodeEncode(m: Message)
    requires m.oldState.Canonical() && m.newState.Canonical()
    ensures Decode(Encode(m)) == Ok(m)
  {
    ParseStateText(m.oldState);
    ParseStateText(m.newState);
  }
}
