/** The per-call options of an input read and their default fill
    (core/core.go, `InputOptions`, `initializeInputOptions` and `init`).

    Each field is tri-state: None for a nil pointer ("unset"), Some(b) for a set one.
    The source fills the defaults in place, at most once per record, under a
    `sync.Once`; here the fill is a pure function of the record it is given.
 */
module Options {
  import opened Wrappers

  datatype InputOptions = InputOptions(required: Option<bool>, trimWhitespace: Option<bool>)

  /** Default of an unset `Required`. */
  const DefaultRequired := false

  /** Default of an unset `TrimWhitespace`. */
  const DefaultTrimWhitespace := true

  /** The record with no field set, as built by `&InputOptions{}`. */
  const Unset := InputOptions(None, None)

  /** Both fields are set: the state `init` leaves a record in. */
  predicate Resolved(o: InputOptions) {
    o.required.Some? && o.trimWhitespace.Some?
  }

  /** `init`: fills each unset field with its default and leaves set fields alone. */
  function Init(o: InputOptions): (r: InputOptions)
    ensures Resolved(r)
    ensures o.required.Some? ==> r.required == o.required
    ensures o.required.None? ==> r.required == Some(DefaultRequired)
    ensures o.trimWhitespace.Some? ==> r.trimWhitespace == o.trimWhitespace
    ensures o.trimWhitespace.None? ==> r.trimWhitespace == Some(DefaultTrimWhitespace)
  {
    InputOptions(
      Some(o.required.GetOr(DefaultRequired)),
      Some(o.trimWhitespace.GetOr(DefaultTrimWhitespace)))
  }

  /** `initializeInputOptions`: a nil record is replaced by an unset one, then filled. */
  function Initialize(options: Option<InputOptions>): (r: InputOptions)
    ensures Resolved(r)
    ensures options.None? ==> r == InputOptions(Some(false), Some(true))
    ensures options.Some? ==> r == Init(options.value)
  {
    match options
    case None => Init(Unset)
    case Some(o) => Init(o)
  }

  /** A record is left unchanged by `init` exactly when both its fields are set. */
  lemma InitFixedPoint(o: InputOptions)
    ensures Init(o) == o <==> Resolved(o)
  {
  }

  /** Running `init` on a record it has already filled changes nothing. */
  lemma InitIdempotent(o: InputOptions)
    ensures Init(Init(o)) == Init(o)
  {
    InitFixedPoint(Init(o));
  }

  /** A nil options record reads exactly like an all-unset one. */
  lemma NilIsUnset()
    ensures Initialize(None) == Initialize(Some(Unset))
  {
  }

  /** Initialising an already initialised record returns it unchanged. */
  lemma InitializeIdempotent(options: Option<InputOptions>)
    ensures Initialize(Some(Initialize(options))) == Initialize(options)
  {
    InitIdempotent(options.GetOr(Unset));
  }
}
