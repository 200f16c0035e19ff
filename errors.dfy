/**
 * The exceptions raised by the modelled part of serde/core.py.
 * The SerdeError cases carry what their message names; the Python
 * built-in exceptions carry the key or attribute that was missing.
 */
module Errors {

  import opened Wrappers

  datatype Error =
    /** SerdeError "Unkown case type: ..." raised by conv; it reports the field's own `case`. */
    | UnknownCase(reported: Option<string>)
    /** SerdeError "Field name is None." raised by conv. */
    | FieldNameIsNone
    /** SerdeError raised by Tagging.check for internal tagging without a tag. */
    | TagRequired
    /** SerdeError raised by Tagging.check for adjacent tagging without tag or content. */
    | TagAndContentRequired
    /** A case converter was handed a field name of None. */
    | CaseConversionFailed
    /** KeyError: a dictionary lookup with a missing key. */
    | KeyError(key: string)
    /** AttributeError: `getattr` on an object that lacks the attribute (or on None). */
    | AttributeError(attr: string)
}
