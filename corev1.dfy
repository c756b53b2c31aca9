/**
 * The Kubernetes core/v1 types that the service builder reads and writes,
 * reduced to the fields it touches. A Go pointer, map or slice whose nil value
 * the builder stores or tests is an `Option`; the ports slice, which it only
 * indexes and measures, is a `seq`.
 */
module CoreV1 {
  import opened Wrappers

  /** Go's int32. */
  newtype int32 = x: int | -0x8000_0000 <= x < 0x8000_0000

  type Protocol = string
  type ServiceType = string
  type ServiceExternalTrafficPolicyType = string
  type IPFamily = string
  type IPFamilyPolicyType = string

  /** intstr.IntOrString: the tag (`Type`) decides which of the two values is meant. */
  datatype IntOrString = IntValue(intVal: int32) | StringValue(strVal: string)

  datatype ServicePort = ServicePort(
    protocol: Protocol,
    port: int32,
    targetPort: IntOrString,
    nodePort: int32)

  datatype ObjectMeta = ObjectMeta(
    name: string,
    namespace: string,
    annotations: Option<map<string, string>>)

  datatype ServiceSpec = ServiceSpec(
    selector: Option<map<string, string>>,
    serviceType: ServiceType,
    externalTrafficPolicy: ServiceExternalTrafficPolicyType,
    ipFamilies: Option<seq<IPFamily>>,
    ipFamilyPolicy: Option<IPFamilyPolicyType>,
    ports: seq<ServicePort>)

  /** corev1.Service, whose ObjectMeta is embedded in Go. */
  datatype Service = Service(meta: ObjectMeta, spec: ServiceSpec)
}
