/**
 * Function definitions and their schema export
 * (Sources/Models/FunctionDefinition.swift).
 */
module FunctionDefinitions {
  import opened Wrappers
  import opened DynamicValue

  /** A parameter's declared type name, description, required flag and nested properties. */
  datatype ParameterSchema = ParameterSchema(
    typeName: string,
    description: string,
    required: bool,
    properties: Option<map<string, ParameterSchema>>)

  /** `ParameterSchema.init`: required defaults to true and properties to nil. */
  function NewParameterSchema(typeName: string, description: string, required: bool := true,
                              properties: Option<map<string, ParameterSchema>> := None): (p: ParameterSchema)
    ensures p.typeName == typeName && p.description == description
    ensures p.required == required && p.properties == properties
  {
    ParameterSchema(typeName, description, required, properties)
  }

  /** What an executor does: return an optional value or throw an error with a description. */
  datatype Outcome = Returned(value: Option<Any>) | Threw(description: string)

  /**
   * An executor: the arguments, and a fresh UUID string for executors that
   * mint identifiers, give the outcome.
   */
  type Executor = (map<string, Any>, string) -> Outcome

  datatype FunctionDefinition = FunctionDefinition(
    id: string,
    name: string,
    description: string,
    parameters: map<string, ParameterSchema>,
    executor: Executor)

  /** One nested property: its type and description only. */
  function NestedSchema(p: ParameterSchema): Any {
    DictValue(map["type" := StringValue(p.typeName), "description" := StringValue(p.description)])
  }

  /** One parameter: type and description, plus its nested properties one level deep when present. */
  function ParameterEntry(p: ParameterSchema): Any {
    var base := map["type" := StringValue(p.typeName), "description" := StringValue(p.description)];
    match p.properties
    case None => DictValue(base)
    case Some(props) =>
      DictValue(base["properties" := DictValue(map k | k in props :: NestedSchema(props[k]))])
  }

  /** `schema`: the definition as a dictionary for the server. */
  function Schema(f: FunctionDefinition): Any {
    DictValue(map[
      "id" := StringValue(f.id),
      "name" := StringValue(f.name),
      "description" := StringValue(f.description),
      "parameters" := DictValue(map[
        "type" := StringValue("object"),
        "properties" := DictValue(map k | k in f.parameters :: ParameterEntry(f.parameters[k]))])])
  }

  /**
   * The shape of `schema`: exactly id, name, description and parameters,
   * the first three copied; parameters has type "object" and one
   * properties entry per declared parameter.
   */
  lemma SchemaShape(f: FunctionDefinition)
    ensures Schema(f).DictValue?
    ensures var e := Schema(f).entries;
      e.Keys == {"id", "name", "description", "parameters"} &&
      e["id"] == StringValue(f.id) && e["name"] == StringValue(f.name) &&
      e["description"] == StringValue(f.description) &&
      e["parameters"].DictValue? && e["parameters"].entries.Keys == {"type", "properties"} &&
      e["parameters"].entries["type"] == StringValue("object") &&
      e["parameters"].entries["properties"].DictValue? &&
      e["parameters"].entries["properties"].entries.Keys == f.parameters.Keys
    ensures forall k :: k in f.parameters ==>
      Schema(f).entries["parameters"].entries["properties"].entries[k] == ParameterEntry(f.parameters[k])
  {
  }

  /**
   * A parameter entry has type and description, gains "properties" exactly
   * when the parameter has nested properties, and never carries "required";
   * nested entries have only type and description, so deeper levels are dropped.
   */
  lemma ParameterEntryShape(p: ParameterSchema)
    ensures ParameterEntry(p).DictValue?
    ensures var e := ParameterEntry(p).entries;
      e["type"] == StringValue(p.typeName) && e["description"] == StringValue(p.description) &&
      "required" !in e &&
      (p.properties.None? ==> e.Keys == {"type", "description"}) &&
      (p.properties.Some? ==>
         e.Keys == {"type", "description", "properties"} &&
         e["properties"].DictValue? && e["properties"].entries.Keys == p.properties.value.Keys &&
         forall k :: k in p.properties.value ==>
           e["properties"].entries[k].DictValue? &&
           e["properties"].entries[k].entries.Keys == {"type", "description"} &&
           e["properties"].entries[k].entries["type"] == StringValue(p.properties.value[k].typeName) &&
           e["properties"].entries[k].entries["description"] == StringValue(p.properties.value[k].description))
  {
  }

  /** The id the server reads back from an exported schema. */
  function SchemaId(a: Any): string {
    if a.DictValue? && "id" in a.entries && a.entries["id"].StringValue? then a.entries["id"].s else ""
  }

  /** Every schema serialises, and its id reads back as the definition's id. */
  lemma SchemaEncodable(f: FunctionDefinition)
    ensures Encodable(Schema(f))
    ensures SchemaId(Schema(f)) == f.id
  {
    var props := DictValue(map k | k in f.parameters :: ParameterEntry(f.parameters[k]));
    PropertiesEncodable(f.parameters);
    var params := map["type" := StringValue("object"), "properties" := props];
    assert Encodable(DictValue(params));
  }

  /** The properties object of a schema serialises. */
  lemma PropertiesEncodable(ps: map<string, ParameterSchema>)
    ensures Encodable(DictValue(map k | k in ps :: ParameterEntry(ps[k])))
  {
    var props := map k | k in ps :: ParameterEntry(ps[k]);
    forall k | k in props
      ensures Encodable(props[k])
    {
      ParameterEntryEncodable(ps[k]);
    }
  }

  lemma ParameterEntryEncodable(p: ParameterSchema)
    ensures Encodable(ParameterEntry(p))
  {
    if p.properties.Some? {
      var props := p.properties.value;
      var nested := map k | k in props :: NestedSchema(props[k]);
      forall k | k in nested
        ensures Encodable(nested[k])
      {
        assert Encodable(StringValue(props[k].typeName));
      }
      assert Encodable(DictValue(nested));
    }
  }
}
