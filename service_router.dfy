/**
 * `ClouderaUtils.get_service_by_role`: which Cloudera Manager service owns a
 * node process.
 */
module ServiceRouter {
  import opened Wrappers
  import opened CdhTypes

  const HdfsServiceName := "hdfs01"
  const YarnServiceName := "yarn01"
  const OozieServiceName := "oozie01"
  const HiveServiceName := "hive01"
  const HueServiceName := "hue01"
  const SparkServiceName := "spark_on_yarn01"
  const ZookeeperServiceName := "zookeeper01"
  const HbaseServiceName := "hbase01"

  const ArgumentMissedMessage := "'cluster' or 'instance' argument missed"

  function UnsupportedMessage(process: string): string {
    "Process " + process + " is not supported by CDH plugin"
  }

  /** The routing table as data: every supported process and its service. */
  const ServiceTable: map<string, string> := map[
    "NAMENODE" := HdfsServiceName,
    "DATANODE" := HdfsServiceName,
    "SECONDARYNAMENODE" := HdfsServiceName,
    "RESOURCEMANAGER" := YarnServiceName,
    "NODEMANAGER" := YarnServiceName,
    "JOBHISTORY" := YarnServiceName,
    "OOZIE_SERVER" := OozieServiceName,
    "HIVESERVER2" := HiveServiceName,
    "HIVEMETASTORE" := HiveServiceName,
    "WEBHCAT" := HiveServiceName,
    "HUE_SERVER" := HueServiceName,
    "SPARK_YARN_HISTORY_SERVER" := SparkServiceName,
    "SERVER" := ZookeeperServiceName,
    "MASTER" := HbaseServiceName,
    "REGIONSERVER" := HbaseServiceName
  ]

  /**
   * The service of `process` in the cluster given either directly or as the
   * cluster of `instance`; a missing argument is reported before the process
   * is looked at, and an unknown process is a `ValueError`.
   */
  function ServiceByRole(process: string, cluster: Option<string>, instance: Option<Instance>)
    : (r: Result<Service, Error>)
    ensures cluster.None? && instance.None? ==> r == Err(ValueError(ArgumentMissedMessage))
    ensures cluster.Some? || instance.Some? ==>
      (r.Ok? <==> process in ServiceTable) &&
      (r.Ok? ==> r.value == Service(if cluster.Some? then cluster.value else instance.value.cluster,
                                    ServiceTable[process])) &&
      (r.Err? ==> r.error == ValueError(UnsupportedMessage(process)))
  {
    if cluster.None? && instance.None? then
      Err(ValueError(ArgumentMissedMessage))
    else
      var cm := if cluster.Some? then cluster.value else instance.value.cluster;
      if process in ["NAMENODE", "DATANODE", "SECONDARYNAMENODE"] then
        Ok(Service(cm, HdfsServiceName))
      else if process in ["RESOURCEMANAGER", "NODEMANAGER", "JOBHISTORY"] then
        Ok(Service(cm, YarnServiceName))
      else if process in ["OOZIE_SERVER"] then
        Ok(Service(cm, OozieServiceName))
      else if process in ["HIVESERVER2", "HIVEMETASTORE", "WEBHCAT"] then
        Ok(Service(cm, HiveServiceName))
      else if process in ["HUE_SERVER"] then
        Ok(Service(cm, HueServiceName))
      else if process in ["SPARK_YARN_HISTORY_SERVER"] then
        Ok(Service(cm, SparkServiceName))
      else if process in ["SERVER"] then
        Ok(Service(cm, ZookeeperServiceName))
      else if process in ["MASTER", "REGIONSERVER"] then
        Ok(Service(cm, HbaseServiceName))
      else
        Err(ValueError(UnsupportedMessage(process)))
  }

  /** The service that owns a supported process, after plugin name conversion, on this instance. */
  function OwningService(pu: PluginUtils, instance: Instance, process: string): Service
    requires Supported(pu, process)
  {
    Service(instance.cluster, ServiceTable[pu.convertRoleShowname(process)])
  }

  /** The process, once converted, has an owning service. */
  predicate Supported(pu: PluginUtils, process: string) {
    pu.convertRoleShowname(process) in ServiceTable
  }
}
