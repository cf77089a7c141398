/**
 * The key/value bag that a traversal step carries.
 *
 * `StepContext` is the mutable object of the `traversalV2` package: a
 * start flag, a step number, a lazily created data map and a stopping flag.
 * `Context` is the value the network-trace traversal passes to its
 * conditions and actions (the `networktrace` step context, whose own class is
 * not part of this model); it carries the same step number, data map and
 * stopping flag, and reads its data the same way.
 */
module StepContexts {
  import opened Wrappers

  /** A value kept under a context key: Kotlin's `Any?`, restricted to what traces store. */
  datatype Value = Null | IntValue(i: int) | TextValue(s: string)

  /** `data?.get(key)`: null when there is no map yet or the key is absent. */
  function Get(data: Option<map<string, Value>>, key: string): Value
  {
    match data
    case None => Null
    case Some(m) => if key in m then m[key] else Null
  }

  /** The map after `data = data ?: mutableMapOf(); data[key] = value`. */
  function Put(data: Option<map<string, Value>>, key: string, value: Value): (r: Option<map<string, Value>>)
    ensures r.Some?
    ensures data.Some? ==> r.value.Keys == data.value.Keys + {key}
    ensures data.None? ==> r.value.Keys == {key}
  {
    Some(data.GetOr(map[])[key := value])
  }

  /** Reading a key that was never written gives null. */
  lemma GetUnset(key: string)
    ensures Get(None, key) == Null
    ensures Get(Some(map[]), key) == Null
  {
  }

  /** Reading a key just written gives the value written; every other key reads as before. */
  lemma GetAfterPut(data: Option<map<string, Value>>, key: string, value: Value, other: string)
    ensures Get(Put(data, key, value), key) == value
    ensures other != key ==> Get(Put(data, key, value), other) == Get(data, other)
  {
  }

  /** Writing the same key twice keeps only the second value. */
  lemma PutOverwrites(data: Option<map<string, Value>>, key: string, v: Value, w: Value)
    ensures Put(Put(data, key, v), key, w) == Put(data, key, w)
  {
    var m := data.GetOr(map[]);
    assert m[key := v][key := w] == m[key := w];
  }

  class StepContext {
    const isStartItem: bool
    const stepNumber: int
    var customData: Option<map<string, Value>>
    var isStopping: bool

    /** `StepContext(isStartItem, stepNumber, customData)`: not stopping to begin with. */
    constructor (isStartItem: bool, stepNumber: int, customData: Option<map<string, Value>>)
      ensures this.isStartItem == isStartItem && this.stepNumber == stepNumber
      ensures this.customData == customData
      ensures !isStopping
    {
      this.isStartItem := isStartItem;
      this.stepNumber := stepNumber;
      this.customData := customData;
      isStopping := false;
    }

    /** `StepContext(isStartItem)`: the defaults are step 0 and no data. */
    constructor Default(isStartItem: bool)
      ensures this.isStartItem == isStartItem && stepNumber == 0
      ensures customData == None
      ensures !isStopping
    {
      this.isStartItem := isStartItem;
      stepNumber := 0;
      customData := None;
      isStopping := false;
    }

    /** `setData`: creates the map on first use, then stores the value under the key. */
    method SetData(key: string, value: Value)
      modifies this`customData
      ensures customData == Put(old(customData), key, value)
      ensures GetData(key) == value
      ensures forall other :: other != key ==> GetData(other) == old(GetData(other))
    {
      var data := if customData.Some? then customData.value else map[];
      data := data[key := value];
      customData := Some(data);
    }

    /** `getData`: the value stored under the key, or null when there is no map or no such key. */
    function GetData(key: string): (v: Value)
      reads this
      ensures customData.Some? && key in customData.value ==> v == customData.value[key]
      ensures customData.None? || key !in customData.value ==> v == Null
    {
      Get(customData, key)
    }

    /** The traversal's internal setter of `isStopping`. */
    method SetStopping(stopping: bool)
      modifies this`isStopping
      ensures isStopping == stopping
      ensures forall key :: GetData(key) == old(GetData(key))
    {
      isStopping := stopping;
    }
  }

  /** A step context as a value: the form the network trace passes around. */
  datatype Context = Context(stepNumber: int, data: Option<map<string, Value>>, isStopping: bool)
  {
    function GetData(key: string): Value
    {
      Get(data, key)
    }
  }

  /** `StepContext()`: step 0, no data, not stopping. */
  const Initial: Context := Context(0, None, false)
}
