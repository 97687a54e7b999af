/** The shape of an extraction by the Anthropic provider, whatever the model
    answered: exactly the schema's fields, every confidence between 0 and 1. */
module AnthropicExtractor {
  import opened Domain
  import Confidence

  /** The answer for one field: the model's, with its confidence clamped, or none. */
  function Shaped(raw: map<string, Field>, name: string): Field {
    if name in raw then raw[name].(confidence := Confidence.Clamp01(raw[name].confidence)) else Field(Null, 0.0)
  }

  method Extract(raw: map<string, Field>, schema: map<string, string>) returns (fields: map<string, Field>)
    ensures fields.Keys == schema.Keys
    ensures forall n :: n in fields ==> 0.0 <= fields[n].confidence <= 1.0
    ensures forall n :: n in fields ==> fields[n].value == if n in raw then raw[n].value else Null
    ensures forall n :: n in fields && n in raw && 0.0 <= raw[n].confidence <= 1.0 ==> fields[n] == raw[n]
    ensures forall n :: n in fields ==>
      fields[n].confidence == if n !in raw || raw[n].confidence < 0.0 then 0.0 else if raw[n].confidence > 1.0 then 1.0 else raw[n].confidence
  {
    fields := map[];
    var rest := schema.Keys;
    while rest != {}
      invariant rest <= schema.Keys && fields.Keys == schema.Keys - rest
      invariant forall n :: n in fields ==> fields[n] == Shaped(raw, n)
      decreases |rest|
    {
      var name :| name in rest;
      fields := fields[name := Shaped(raw, name)];
      rest := rest - {name};
    }
  }
}
