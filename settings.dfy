/** The run-scoped configuration the core reads from the environment once per run. */
module Settings {

  datatype Config = Config(
    separator: string,        // APP_SEPERATOR
    apiGwIndicator: string,   // APP_APIGW_INDICATOR
    stbsIndicator: string,    // APP_STBS_INDICATOR
    startAttr: string,        // APP_CHG_DATA_IMPL_START_ATTR
    servicesAttr: string,     // APP_CHG_DATA_AFF_SRVS_ATTR
    opcoAttr: string,         // APP_CHG_DATA_AFF_OPCO_ATTR
    titleAttr: string,        // APP_CHG_DATA_TITLE_ATTR
    statusAttr: string,       // APP_CHG_DATA_STATUS_ATTR
    typesOfInterest: string,  // APP_CHG_TYPES_OF_INTEREST, comma separated
    topoEp: string,           // AIOPS_TOPO_EP
    resourcesEp: string,      // AIOPS_RESOURCES_EP
    referencesEp: string      // AIOPS_REFERENCES_EP
  )

  /** The entity type and relation type constants. */
  const ChangeEntityType := "change"
  const HasEdgeType := "has"
}
