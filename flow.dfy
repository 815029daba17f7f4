/** What a flow step hands back to the host platform, and the stored
    configuration entry an options flow is opened on. */
module Flow {
  import opened PyValues
  import opened FormSchema

  /** `async_show_form` and `async_create_entry`. An empty `errors` map stands
      for a form shown without errors; `options` is `None` when the step did
      not pass any. */
  datatype FlowResult =
    | ShowForm(stepId: string, schema: Schema, errors: map<string, string>)
    | CreateEntry(title: string, data: Options, options: Option<Options>)

  /** The part of a stored config entry the flows read. */
  datatype ConfigEntry = ConfigEntry(title: string, data: Options, options: Options)
}
