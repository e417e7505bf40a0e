/**
 * The configuration files are read and written with XmlDocument. The model
 * keeps only what the mod looks at: for each element name, the map from
 * attribute name to attribute value.
 */
module Xml {
  /** Attributes of one element. */
  type Attributes = map<string, string>

  /** The elements of interest, by element name. */
  type Elements = map<string, Attributes>

  /** A configuration file as the mod sees it when it tries to load it. */
  datatype XmlFile = Missing | Malformed | Parsed(elements: Elements)
}
