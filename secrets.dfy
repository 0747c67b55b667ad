/**
 * The secret store (src/secrets.rs): named credentials and the first-match
 * lookup by name. Loading the store from a TOML file is not part of this model.
 */
module Secrets {
  import opened Wrappers
  import opened Wire

  /** A secret as callers see it. */
  datatype Secret = Secret(name: string, value: string)

  /** A secret as the store holds it. */
  datatype SecretConfig = SecretConfig(name: string, value: string) {
    /** `SecretConfig::get_public`. */
    function GetPublic(): Secret {
      Secret(name, value)
    }
  }

  /** The public view is a field-for-field copy: it loses nothing and changes nothing. */
  lemma GetPublicFieldForField(a: SecretConfig, b: SecretConfig)
    ensures a.GetPublic().name == a.name && a.GetPublic().value == a.value
    ensures a.GetPublic() == b.GetPublic() <==> a == b
  {
  }

  datatype SecretsConfig = SecretsConfig(secret: seq<SecretConfig>)

  datatype Secrets = Secrets(config: SecretsConfig) {

    /** `get_by_name`: the first stored secret whose name is `name`; later duplicates are shadowed. */
    method GetByName(name: string) returns (r: Result<Secret, IoError>)
      ensures r.Success? <==> exists i :: 0 <= i < |config.secret| && config.secret[i].name == name
      ensures r.Success? ==>
        exists i :: 0 <= i < |config.secret| && config.secret[i].name == name &&
          (forall j :: 0 <= j < i ==> config.secret[j].name != name) &&
          r.value == config.secret[i].GetPublic()
      ensures r.Success? ==> r.value.name == name
      ensures r.Failure? ==> r.error == IoError(NotFound, "Secret " + name + " not found")
    {
      for i := 0 to |config.secret|
        invariant forall j :: 0 <= j < i ==> config.secret[j].name != name
      {
        if config.secret[i].name == name {
          return Success(config.secret[i].GetPublic());
        }
      }
      return Failure(IoError(NotFound, "Secret " + name + " not found"));
    }
  }
}
