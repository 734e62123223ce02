/** `json_to_template_data`: the root namespace a template is rendered
    against. Templates may always assume an object at the top level. */
module TemplateData {
  import opened Json

  function JsonToTemplateData(v: Value): (m: map<string, Value>)
    ensures v.Object? ==> m == v.fields
    ensures !v.Object? ==> m.Keys == {"data"} && m["data"] == v
  {
    match v
    case Object(fields) => fields
    case _ => map["data" := v]
  }

  /** Every key and value of an object payload reaches the template, and
      nothing else does. */
  lemma ObjectFieldsPreserved(fields: map<string, Value>, k: string)
    ensures k in JsonToTemplateData(Object(fields)) <==> k in fields
    ensures k in fields ==> JsonToTemplateData(Object(fields))[k] == fields[k]
  {
  }

  /** The wrapping is undone by looking up `data`, except for an object, which
      is passed through. */
  lemma WrappedValueRecoverable(v: Value)
    requires !v.Object?
    ensures |JsonToTemplateData(v)| == 1 && JsonToTemplateData(v)["data"] == v
  {
  }

  /** The example of the unit test: `{"name": "John", "age": 30}`. */
  lemma NameAgeExample()
    ensures var m := JsonToTemplateData(Object(map["name" := String("John"), "age" := Number(30)]));
      m["name"] == String("John") && m["age"] == Number(30)
  {
  }
}
