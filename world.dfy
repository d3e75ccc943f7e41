/** The world server the commands act on, as seen through its SDK.

    The SDK (aw_object_load, aw_terrain_load_node, write_data, the bulk delete
    calls, aw_object_delete and Instance.query) is not part of this model. A
    world records, in order, every SDK call the commands issue; whether a call
    raises, what a query yields and which world attribute names exist are
    fixed by an `Sdk` value the world is created with. */
module World {
  import opened Wrappers
  import opened Codec
  import opened Query

  /** An SDK call and its arguments. */
  datatype Call =
    | ObjectLoad(entity: Record)                // aw_object_load(ObjectLoadData(**data))
    | TerrainLoadNode(node: Record)             // aw_terrain_load_node(TerrainNodeData(**data))
    | WriteData(attribute: int, value: Value)   // write_data(WorldAttributeEnum[name].value, value)
    | DeleteAllObjects                          // aw_delete_all_objects()
    | TerrainDeleteAll                          // aw_terrain_delete_all()
    | WorldAttributesReset                      // aw_world_attributes_reset()
    | ObjectDelete(number: Value, x: Value, z: Value)  // aw_object_delete(ObjectDeleteData(number, x, z))

  /** The server's side of the SDK: the entities a query yields (as records of
      their fields), which calls raise (building the SDK's data object from the
      record included), and the value WorldAttributeEnum gives a name. */
  datatype Sdk = Sdk(
    query: Category -> Stream<Record>,
    raises: Call -> bool,
    attribute: string -> Option<int>)

  /** How an issued call ends. */
  function CallOutcome(sdk: Sdk, call: Call): (o: Outcome)
    ensures o.Pass? <==> !sdk.raises(call)
  {
    if sdk.raises(call) then Fail(SdkError) else Pass
  }

  class World {
    const sdk: Sdk
    /** Every SDK call issued so far, oldest first. */
    var trace: seq<Call>

    constructor (sdk: Sdk)
      ensures this.sdk == sdk && trace == []
    {
      this.sdk := sdk;
      trace := [];
    }

    /** Issues one SDK call: it is recorded whether or not it raises. */
    method Issue(call: Call) returns (outcome: Outcome)
      modifies this
      ensures trace == old(trace) + [call]
      ensures outcome == CallOutcome(sdk, call)
    {
      trace := trace + [call];
      outcome := if sdk.raises(call) then Fail(SdkError) else Pass;
    }
  }
}
