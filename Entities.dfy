/** The two records the redrive pipeline shares: the per-queue configuration
    and a message pulled from the queue. */
module Entities {
  import opened Wrappers

  /** Per-queue configuration, read-only while a processor runs. The four
      credential strings are only tested with `string.IsNullOrEmpty`, so a C#
      null there is represented by "". The redrive URL reaches the model only
      through the result of parsing it (a null or empty URL fails to parse),
      and the alias is used only in log text. */
  datatype ConfigurationEntry = ConfigurationEntry(
    alias: string,
    redriveUrl: string,
    useGET: bool,
    usePUT: bool,
    useDelete: bool,
    ignoreCertificateErrors: bool,
    /** Request timeout; None leaves the HTTP client's default in place. */
    timeout: Option<int>,
    awsGatewayToken: string,
    authToken: string,
    basicAuthUserName: string,
    basicAuthPassword: string)

  /** One message as returned by the queue client. The attribute dictionary is
      given in its enumeration order; None stands for a null dictionary. */
  datatype Message = Message(
    messageIdentifier: string,
    content: string,
    attributes: Option<seq<(string, string)>>)
}
