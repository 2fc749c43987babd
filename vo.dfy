/** The value objects exchanged between the proxy and its clients (pkg/vo). */
module Vo {

  type ServiceID = string

  /** One JSON value of a service's `Custom` payload; nothing in the core looks inside it. */
  datatype Opaque = Opaque(json: string)

  /** A service to proxy to: its identifier, its backend address and opaque custom data. */
  datatype Service = Service(id: ServiceID, address: string, custom: map<string, Opaque>)

  /** The error sent back to a client; `Error()` returns `err`. */
  datatype ServiceError = ServiceError(err: string)
}

/** The value objects of the older revision (vo): services routed by path prefix or mime type. */
module LegacyVo {

  type ServiceID = string

  /** A service: its identifier, the backend address to proxy to, its path prefix and its mime types. */
  datatype Service = Service(id: ServiceID, backendAddress: string, path: string, mimeTypes: seq<string>)
}
