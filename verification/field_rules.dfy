/** The kind-specific checks that the two engines write out identically: each
    engine applies them after its own required-check. Swift's `String.count`
    (grapheme clusters) is modelled as sequence length and `contains("@")` as
    character membership. */
module FieldRules {
  import opened Common

  const DefaultMinLength: int := 8

  /** `if let maxLength = metadata["maxLength"] as? Int, let text = value as? String,
      text.count > maxLength`: the rule is off unless both casts succeed. */
  predicate ExceedsMaxLength(config: FieldConfiguration, value: Value) {
    var maxLength := MetaInt(config.metadata, "maxLength");
    maxLength.Some? && value.Str? && |value.s| > maxLength.value
  }

  /** `email.contains("@") && email.contains(".")` */
  predicate IsEmailShaped(email: string) {
    '@' in email && '.' in email
  }

  /** `metadata["minLength"] as? Int ?? 8` */
  function MinPasswordLength(config: FieldConfiguration): (n: int)
    ensures "minLength" in config.metadata && config.metadata["minLength"].IntV? ==> n == config.metadata["minLength"].i
    ensures !("minLength" in config.metadata && config.metadata["minLength"].IntV?) ==> n == DefaultMinLength
  {
    match MetaInt(config.metadata, "minLength")
    case Some(n) => n
    case None => DefaultMinLength
  }

  /** `phone.count >= 10` */
  predicate IsPhoneLength(phone: string) {
    |phone| >= 10
  }

  /** `card.count >= 13 && card.count <= 19` */
  predicate IsCardLength(card: string) {
    13 <= |card| <= 19
  }
}
