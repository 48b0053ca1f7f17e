/**
 * The identity slot of a request (actix-identity's cookie-backed `Identity`):
 * `remember` stores a payload, `forget` clears it. Signing and cookie
 * transport are not part of this model.
 */
module Session {
  import opened Wrappers
  import opened Json

  class Identity {
    /** `Identity::identity()`: the remembered payload, if any. */
    var payload: Option<JsonObject>

    constructor (payload: Option<JsonObject>)
      ensures this.payload == payload
    {
      this.payload := payload;
    }

    /** `Identity::remember`. */
    method Remember(p: JsonObject)
      modifies this
      ensures payload == Some(p)
    {
      payload := Some(p);
    }

    /** `Identity::forget`. */
    method Forget()
      modifies this
      ensures payload == None
    {
      payload := None;
    }
  }
}
