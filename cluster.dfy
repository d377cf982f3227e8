/** ZigbeeCluster (libnymea-zigbee/zigbeecluster.h): a cluster of one node
    endpoint, identified by its cluster id and direction, holding the
    attributes read from or reported by the device in a hash keyed by the
    16-bit attribute id. */
module ZigbeeCluster {
  import opened Types

  datatype Direction = Input | Output

  /** Zigbee::ClusterId. Its declaration (zigbee.h) is not part of this
      model: a cluster id is its 16-bit code, and the placeholder
      ClusterIdUnknown is kept apart from every code. */
  datatype ClusterId = ClusterIdUnknown | ClusterIdCode(code: uint16)

  /** ZigbeeClusterAttribute is not part of this model beyond its 16-bit id;
      the data type byte and the raw data stand for its opaque value. */
  datatype ClusterAttribute = ClusterAttribute(id: uint16, dataType: uint8, data: seq<uint8>)

  /** One record of a Configure Reporting exchange: intervals and timeout
      are 16-bit, the reportable change 8-bit. */
  datatype ReportConfigurationRecord = ReportConfigurationRecord(
    direction: uint8,
    dataType: uint8,
    attributeId: uint16,
    minInterval: uint16,
    maxInterval: uint16,
    timeout: uint16,
    change: uint8)

  /** An attribute report as it arrives from a node: 16-bit source short
      address, 8-bit endpoint, the cluster, the attribute and its value. */
  datatype AttributeReport = AttributeReport(
    sourceAddress: uint16,
    endpointId: uint8,
    clusterId: ClusterId,
    attributeId: uint16,
    attributeStatus: uint8,
    dataType: uint8,
    data: seq<uint8>)

  class Cluster {
    const clusterId: ClusterId
    const direction: Direction
    var attributes: map<uint16, ClusterAttribute>

    /** Every attribute is stored under its own id. */
    ghost predicate Valid()
      reads this
    {
      forall id :: id in attributes ==> attributes[id].id == id
    }

    constructor (clusterId: ClusterId, direction: Direction)
      ensures Valid()
      ensures this.clusterId == clusterId && this.direction == direction
      ensures attributes == map[]
    {
      this.clusterId := clusterId;
      this.direction := direction;
      attributes := map[];
    }

    method GetDirection() returns (d: Direction)
      ensures d == direction
    {
      d := direction;
    }

    method GetClusterId() returns (id: ClusterId)
      ensures id == clusterId
    {
      id := clusterId;
    }

    method HasAttribute(id: uint16) returns (b: bool)
      ensures b <==> id in attributes
    {
      b := id in attributes;
    }

    /** The attribute stored under id, or None when the cluster has none. */
    method Attribute(id: uint16) returns (r: Option<ClusterAttribute>)
      requires Valid()
      ensures r.Some? <==> id in attributes
      ensures r.Some? ==> r.value == attributes[id] && r.value.id == id
    {
      if id in attributes {
        r := Some(attributes[id]);
      } else {
        r := None;
      }
    }

    /** Stores the attribute under its id, replacing any attribute held for
        that id and leaving every other id untouched. */
    method SetAttribute(attribute: ClusterAttribute)
      requires Valid()
      modifies this`attributes
      ensures Valid()
      ensures attributes == old(attributes)[attribute.id := attribute]
    {
      attributes := attributes[attribute.id := attribute];
    }

    /** Lists the stored attributes: exactly the values of the hash, one per
        key, in no particular order. */
    method Attributes() returns (list: seq<ClusterAttribute>)
      requires Valid()
      ensures |list| == |attributes|
      ensures forall a :: a in list <==> a in attributes.Values
      ensures forall i, j :: 0 <= i < j < |list| ==> list[i].id != list[j].id
    {
      list := [];
      var remaining := attributes.Keys;
      while remaining != {}
        invariant remaining <= attributes.Keys
        invariant |list| + |remaining| == |attributes|
        invariant forall i :: 0 <= i < |list| ==>
          list[i].id in attributes && attributes[list[i].id] == list[i] && list[i].id !in remaining
        invariant forall id :: id in attributes && id !in remaining ==>
          exists i :: 0 <= i < |list| && list[i].id == id
        invariant forall i, j :: 0 <= i < j < |list| ==> list[i].id != list[j].id
        decreases remaining
      {
        var id :| id in remaining;
        ghost var before := list;
        list := list + [attributes[id]];
        remaining := remaining - {id};
        forall k | k in attributes && k !in remaining
          ensures exists i :: 0 <= i < |list| && list[i].id == k
        {
          if k == id {
            assert list[|before|].id == k;
          } else {
            var i :| 0 <= i < |before| && before[i].id == k;
            assert list[i].id == k;
          }
        }
      }
    }
  }
}
