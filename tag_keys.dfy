/** `KafkaInterceptorTagKey`: the tag keys the interceptors put on their spans. */
module KafkaInterceptorTagKey {
  const KafkaTopic := "kafka.topic"
  const KafkaKey := "kafka.key"
  const KafkaClientId := "kafka.client.id"
  const KafkaGroupId := "kafka.group.id"
}
