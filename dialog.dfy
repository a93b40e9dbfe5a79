/** The "create preset" form (src/components/create-model-dialog.tsx): two text fields
    and a submit handler that hands the values to the page and closes the dialog. */
module Dialog {
  import opened Text

  /** A callback the dialog invokes on its owner, in the order invoked. */
  datatype Call =
    | CreateModel(name: string, description: string)  // `onCreateModel(name, description)`
    | OpenChange(open: bool)                           // `onOpenChange(open)`

  class CreateModelDialog {
    var name: string
    var description: string

    constructor ()
      ensures name == "" && description == ""
    {
      name, description := "", "";
    }

    /** The name field's `onChange`. */
    method SetName(text: string)
      modifies this
      ensures name == text && description == old(description)
    {
      name := text;
    }

    /** The description field's `onChange`. */
    method SetDescription(text: string)
      modifies this
      ensures description == text && name == old(name)
    {
      description := text;
    }

    /** `handleSubmit`. A blank name invokes nothing and keeps both fields; otherwise
        the owner is asked once to create a preset from the untrimmed name and
        description, both fields are emptied, and the dialog asks to be closed. */
    method HandleSubmit() returns (calls: seq<Call>)
      modifies this
      ensures IsBlank(old(name)) ==>
        calls == [] && name == old(name) && description == old(description)
      ensures !IsBlank(old(name)) ==>
        calls == [CreateModel(old(name), old(description)), OpenChange(false)]
        && name == "" && description == ""
    {
      calls := [];
      if !IsBlank(name) {
        calls := calls + [CreateModel(name, description)];
        name := "";
        description := "";
        calls := calls + [OpenChange(false)];
      }
    }
  }
}
