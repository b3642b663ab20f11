/** The Kubernetes and Helm values the deployment commands build and hand to the
    cluster: secrets, chart values and a chart specification. */
module Kube {

  newtype byte = x: int | 0 <= x < 256

  /** corev1.TLSPrivateKeyKey and corev1.TLSCertKey */
  const TLSPrivateKeyKey := "tls.key"
  const TLSCertKey := "tls.crt"

  /** corev1.SecretTypeTLS and corev1.SecretTypeOpaque */
  const SecretTypeTLS := "kubernetes.io/tls"
  const SecretTypeOpaque := "Opaque"

  /** A corev1.Secret, reduced to the fields the source sets. */
  datatype Secret = Secret(
    secretType: string,
    data: map<string, seq<byte>>,
    name: string,
    namespace: string,
    labels: map<string, string>)

  /** A chart value: a string, or any other YAML node (kept as its text). */
  datatype Value = Text(s: string) | Node(yaml: string)

  type Values = map<string, Value>

  /** helmclient.ChartSpec, reduced to the fields the source sets. */
  datatype ChartSpec = ChartSpec(
    releaseName: string,
    chartName: string,
    namespace: string,
    wait: bool,
    valuesYaml: string)
}
