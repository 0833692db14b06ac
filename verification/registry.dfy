/** The tool registry: the fixed, ordered list of tool descriptors the server
    advertises through `list_tools`. */
module Registry {
  import opened Wrappers

  /** The JSON-schema type of one property. Per-property description strings are
      not modelled. */
  datatype SchemaType =
    | StringType(format: Option<string>)
    | ArrayType(items: SchemaType)

  datatype Property = Property(name: string, schemaType: SchemaType)

  /** An `"type": "object"` input schema: its properties in declaration order and
      the names it marks as required. */
  datatype InputSchema = ObjectSchema(properties: seq<Property>, required: seq<string>)

  datatype Tool = Tool(name: string, description: string, inputSchema: InputSchema)

  const CreateEventName := "create-event"
  const SearchEventsName := "search-events"

  function PropertyNames(schema: InputSchema): seq<string> {
    seq(|schema.properties|, i requires 0 <= i < |schema.properties| => schema.properties[i].name)
  }

  function ToolNames(tools: seq<Tool>): seq<string> {
    seq(|tools|, i requires 0 <= i < |tools| => tools[i].name)
  }

  /** A schema is well formed when its property names are distinct and every
      required name is one of its properties. */
  predicate WellFormed(schema: InputSchema) {
    var names := PropertyNames(schema);
    && (forall i, j :: 0 <= i < j < |names| ==> names[i] != names[j])
    && (forall k :: k in schema.required ==> k in names)
  }

  /** The names of the optional properties of a schema, declared but not
      required, in declaration order. */
  function OptionalNames(names: seq<string>, required: seq<string>): seq<string> {
    if |names| == 0 then []
    else if names[0] in required then OptionalNames(names[1..], required)
    else [names[0]] + OptionalNames(names[1..], required)
  }

  function Optional(schema: InputSchema): seq<string> {
    OptionalNames(PropertyNames(schema), schema.required)
  }

  /** The tool descriptions the agent reads. */
  const CreateEventDescription: string :=
    "Create a new calendar event. Times must be in ISO 8601 format with UTC timezone (e.g., '2024-12-04T10:00:00Z')"
  const SearchEventsDescription: string :=
    "Search for calendar events. Time range must be specified in ISO 8601 format with UTC timezone"

  const DateTime: SchemaType := StringType(Some("date-time"))
  const PlainString: SchemaType := StringType(None)

  /** The `create-event` descriptor. */
  function CreateEventTool(): Tool {
    Tool(
      CreateEventName,
      CreateEventDescription,
      ObjectSchema(
        [ Property("summary", PlainString),
          Property("description", PlainString),
          Property("start_time", DateTime),
          Property("end_time", DateTime),
          Property("attendees", ArrayType(StringType(Some("email")))) ],
        ["summary", "start_time", "end_time"]))
  }

  /** The `search-events` descriptor. */
  function SearchEventsTool(): Tool {
    Tool(
      SearchEventsName,
      SearchEventsDescription,
      ObjectSchema(
        [ Property("time_min", DateTime),
          Property("time_max", DateTime),
          Property("query", PlainString) ],
        ["time_min", "time_max"]))
  }

  /** The list returned by `handle_list_tools`: the two descriptors, in order. */
  function ListTools(): (tools: seq<Tool>)
    ensures ToolNames(tools) == [CreateEventName, SearchEventsName]
  {
    [CreateEventTool(), SearchEventsTool()]
  }

  /** `create-event` requires `summary`, `start_time` and `end_time`; `description`
      and `attendees` are optional; the schema is well formed. */
  lemma CreateEventSchema()
    ensures var schema := CreateEventTool().inputSchema;
            && schema.required == ["summary", "start_time", "end_time"]
            && Optional(schema) == ["description", "attendees"]
            && WellFormed(schema)
  {
    CreateEventOptional();
    CreateEventWellFormed();
  }

  /** Of the five properties, `description` and `attendees` are not required. */
  lemma CreateEventOptional()
    ensures Optional(CreateEventTool().inputSchema) == ["description", "attendees"]
  {
    var schema := CreateEventTool().inputSchema;
    var names := PropertyNames(schema);
    var required := schema.required;
    assert names == ["summary", "description", "start_time", "end_time", "attendees"];
    assert OptionalNames(names[4..], required) == ["attendees"];
    assert OptionalNames(names[3..], required) == ["attendees"];
    assert OptionalNames(names[2..], required) == ["attendees"];
    assert OptionalNames(names[1..], required) == ["description", "attendees"];
  }

  /** The five property names have five different lengths. */
  lemma CreateEventWellFormed()
    ensures WellFormed(CreateEventTool().inputSchema)
  {
    var names := PropertyNames(CreateEventTool().inputSchema);
    assert names == ["summary", "description", "start_time", "end_time", "attendees"];
    assert forall i :: 0 <= i < |names| ==> |names[i]| == [7, 11, 10, 8, 9][i];
  }

  /** `search-events` requires `time_min` and `time_max`; `query` is optional; the
      schema is well formed. */
  lemma SearchEventsSchema()
    ensures var schema := SearchEventsTool().inputSchema;
            && schema.required == ["time_min", "time_max"]
            && Optional(schema) == ["query"]
            && WellFormed(schema)
  {
    var schema := SearchEventsTool().inputSchema;
    var names := PropertyNames(schema);
    assert names == ["time_min", "time_max", "query"];
    assert OptionalNames(names[2..], schema.required) == ["query"];
  }

  /** Every advertised descriptor has a well-formed schema, and the required
      fields are `[summary, start_time, end_time]` for the first and
      `[time_min, time_max]` for the second. */
  lemma ListToolsSchemas()
    ensures var tools := ListTools();
            && tools[0].inputSchema.required == ["summary", "start_time", "end_time"]
            && tools[1].inputSchema.required == ["time_min", "time_max"]
            && forall i :: 0 <= i < |tools| ==> WellFormed(tools[i].inputSchema)
  {
    CreateEventSchema();
    SearchEventsSchema();
    var tools := ListTools();
    assert tools[0] == CreateEventTool() && tools[1] == SearchEventsTool();
  }

  /** The advertised tool names are distinct, so a name identifies one tool. */
  lemma ToolNamesDistinct()
    ensures var names := ToolNames(ListTools());
            forall i, j :: 0 <= i < j < |names| ==> names[i] != names[j]
  {
  }
}
