/**
 * The field list shared by the login and signup pages, the `fieldState`
 * loop both pages run to build their initial form, and the one-key update
 * both `handleChange` handlers perform.
 */
module AuthForm {

  /** One input of the form: its name is the key under which its value is kept. */
  datatype Field = Field(name: string, fieldType: string, placeholder: string, required: bool)

  /** `authField`: an email input followed by a password input. */
  const AuthFields: seq<Field> := [
    Field("email", "text", "Email", true),
    Field("password", "password", "Password", true)
  ]

  /** The names of the first `n` fields of `fields`. */
  function NamesOf(fields: seq<Field>, n: nat): set<string>
    requires n <= |fields|
  {
    set i | 0 <= i < n :: fields[i].name
  }

  /**
   * The `forEach` that builds `fieldState`: starting from `{}`, each field
   * in turn is spread in with value `''`. The result maps every field name,
   * and nothing else, to the empty string.
   */
  method InitialFieldState(fields: seq<Field>) returns (state: map<string, string>)
    ensures state.Keys == NamesOf(fields, |fields|)
    ensures forall k :: k in state ==> state[k] == ""
  {
    state := map[];
    for i := 0 to |fields|
      invariant state.Keys == NamesOf(fields, i)
      invariant forall k :: k in state ==> state[k] == ""
    {
      state := state[fields[i].name := ""];
      assert NamesOf(fields, i + 1) == NamesOf(fields, i) + {fields[i].name};
    }
  }

  /** The names in the shared field list are exactly `email` and `password`. */
  lemma AuthFieldNames()
    ensures NamesOf(AuthFields, |AuthFields|) == {"email", "password"}
  {
    var names := NamesOf(AuthFields, |AuthFields|);
    assert AuthFields[0].name in names;
    assert AuthFields[1].name in names;
  }

  /**
   * `{ ...form, [name]: value }`: the named key now holds `value`, every
   * other key keeps its value, and no key is lost.
   */
  function WithField(form: map<string, string>, name: string, value: string): (r: map<string, string>)
    ensures r.Keys == form.Keys + {name}
    ensures r[name] == value
    ensures forall k :: k in form && k != name ==> r[k] == form[k]
  {
    form[name := value]
  }
}
