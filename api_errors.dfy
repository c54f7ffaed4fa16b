/**
 * The errors the request parsers raise: `InvalidRequestPayload` with an error code from the
 * `Errors.NODES` or `Errors.DEVICE` group and its details, and the Python exceptions that
 * escape them.
 */
module ApiErrors {
  import opened Wrappers

  /** Codes of `Errors.NODES`. */
  datatype NodesCode =
    | MISSING_NODE_PROTOCOL_OPTIONS_FIELDS
    | INVALID_TIME_ZONE
    | MISSING_START_TIME
    | INVALID_START_TIME
    | INVALID_END_TIME
    | MISSING_NODE_CONFIG_FIELDS
    | INVALID_NODE_CONFIG_FIELDS
    | INVALID_PROTOCOL
    | INVALID_NODE_PROTOCOL_OPTIONS_FIELDS
    | MISSING_NODE_ATTRIBUTES_FIELDS
    | INVALID_NODE_ATTRIBUTES_FIELDS
    | MISSING_NODE_FIELDS
    | MISSING_NODE_NAME
    | MISSING_PROTOCOL
    | MISSING_NODE_CONFIG
    | MISSING_NODE_PROTOCOL_OPTIONS
    | INVALID_NODE

  /** Codes of `Errors.DEVICE` (both spellings of "communication" occur in the parsers). */
  datatype DeviceCode =
    | MISSING_DEVICE_COMUNICATION_FIELDS
    | MISSING_DEVICE_COMMUNICATION_FIELDS
    | INVALID_DEVICE_COMMUNICATION_FIELDS
    | MISSING_DEVICE_OPTIONS_FIELDS
    | INVALID_DEVICE_OPTIONS_FIELDS
    | INVALID_PROTOCOL
    | MISSING_DEVICE_FIELDS
    | MISSING_DEVICE_ID
    | MISSING_DEVICE_NAME
    | MISSING_PROTOCOL
    | MISSING_TYPE
    | INVALID_TYPE
    | MISSING_DEVICE_OPTIONS

  datatype ErrorCode = Nodes(nodes: NodesCode) | Device(device: DeviceCode)

  /** The `details` of an `InvalidRequestPayload`: `missing_fields`, `fields`, `field`, or none. */
  datatype Details =
    | NoDetails
    | MissingFieldsDetail(missingFields: seq<string>)
    | FieldsDetail(fields: seq<string>)
    | FieldDetail(field: string)

  /**
   * A failed parse: the API error, or a Python exception the parser lets through
   * (`ValueError`, naming a field where `require_field` raised it, `NotImplemeted`, and the
   * `TypeError` a non-dictionary sub-payload leads to).
   */
  datatype Failure =
    | InvalidRequestPayload(code: ErrorCode, details: Details)
    | ValueError(key: Option<string>)
    | NotImplemeted
    | TypeError
}
