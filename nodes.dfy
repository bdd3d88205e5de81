/**
  The node registry: nodes by id, each with a name and a status.
*/
module Nodes {
  datatype Node = Node(id: string, name: string, status: string)

  class NodeManager {
    var nodes: map<string, Node>

    /** Each node is stored under its own id. */
    ghost predicate Valid()
      reads this
    {
      forall id :: id in nodes ==> nodes[id].id == id
    }

    /** `NewNodeManager`. */
    constructor ()
      ensures Valid() && nodes == map[]
    {
      nodes := map[];
    }

    /** `AddNode`: insert a new node; an id already present is left alone. */
    method AddNode(id: string, name: string, status: string)
      requires Valid()
      modifies this
      ensures Valid()
      ensures id in old(nodes) ==> nodes == old(nodes)
      ensures id !in old(nodes) ==> nodes == old(nodes)[id := Node(id, name, status)]
    {
      if id in nodes {
        return;
      }
      nodes := nodes[id := Node(id, name, status)];
    }

    /** `RemoveNode`: delete the id if present. */
    method RemoveNode(id: string)
      requires Valid()
      modifies this
      ensures Valid()
      ensures nodes == old(nodes) - {id}
    {
      if id !in nodes {
        return;
      }
      nodes := nodes - {id};
    }

    /** `UpdateNodeStatus`: change only that node's status. */
    method UpdateNodeStatus(id: string, status: string)
      requires Valid()
      modifies this
      ensures Valid()
      ensures id !in old(nodes) ==> nodes == old(nodes)
      ensures id in old(nodes) ==> nodes == old(nodes)[id := old(nodes)[id].(status := status)]
    {
      if id !in nodes {
        return;
      }
      nodes := nodes[id := nodes[id].(status := status)];
    }

    /** `GetNodeStatus`: the status and true iff the id is registered. */
    method GetNodeStatus(id: string) returns (status: string, found: bool)
      ensures found <==> id in nodes
      ensures found ==> status == nodes[id].status
      ensures !found ==> status == ""
    {
      if id !in nodes {
        return "", false;
      }
      return nodes[id].status, true;
    }

    /** `ListNodes`: a copy of every node, each once, in no particular order. */
    method ListNodes() returns (list: seq<Node>)
      requires Valid()
      ensures |list| == |nodes|
      ensures forall i :: 0 <= i < |list| ==> list[i].id in nodes && nodes[list[i].id] == list[i]
      ensures forall i, j :: 0 <= i < j < |list| ==> list[i].id != list[j].id
      ensures forall id :: id in nodes ==> exists i :: 0 <= i < |list| && list[i].id == id
    {
      list := [];
      var pending := nodes.Keys;
      while pending != {}
        invariant pending <= nodes.Keys
        invariant |list| + |pending| == |nodes|
        invariant forall i :: 0 <= i < |list| ==> list[i].id in nodes && list[i].id !in pending && nodes[list[i].id] == list[i]
        invariant forall i, j :: 0 <= i < j < |list| ==> list[i].id != list[j].id
        invariant forall id :: id in nodes && id !in pending ==> exists i :: 0 <= i < |list| && list[i].id == id
        decreases |pending|
      {
        var id :| id in pending;
        ghost var before := list;
        list := list + [nodes[id]];
        pending := pending - {id};
        forall k | k in nodes && k !in pending
          ensures exists i :: 0 <= i < |list| && list[i].id == k
        {
          if k == id {
            assert list[|list| - 1].id == k;
          } else {
            var i :| 0 <= i < |before| && before[i].id == k;
            assert list[i].id == k;
          }
        }
      }
    }
  }
}
